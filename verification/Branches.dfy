/** How a process goes on whose outermost block holds a statement that suspends
    directly under an if or a case, which module Shape leaves out. */
module Branches {
  import opened Program
  import opened Machine
  import opened Shape
  import opened Refinement
  import opened Restarts
  import opened SideBySide

  // ----- how a run ends -----

  /** Restart the root up to `n` times. */
  function Restarted(d: Design, root: Stmt, m: State, n: nat): Result
    decreases n
  {
    if m.wake == [] then Result(m, Done)
    else if n == 0 then Result(m, Delayed)
    else
      var r := Step(d, root, m);
      if r.status.Bound? || r.status.Stuck? then r else Restarted(d, root, r.m, n - 1)
  }

  /** The same after an activation of the root that returned `r`. */
  function Onward(d: Design, root: Stmt, r: Result, n: nat): Result {
    match r.status
    case Done => Restarted(d, root, PostProc(r.m), n)
    case Delayed => Restarted(d, root, r.m, n)
    case _ => r
  }

  predicate Reports(q: Result, o: Outcome) {
    q.m.world == o.w && (if o.Fin? then q.status.Done? else q.status.Bound?)
  }

  /** The run ends in the world of `o`, or at the step bound if `o` does. */
  ghost predicate EndsWith(d: Design, root: Stmt, r: Result, o: Outcome) {
    exists n: nat :: Reports(Onward(d, root, r, n), o)
  }

  lemma {:induction false} MoreRestarts(d: Design, root: Stmt, m: State, i: nat, j: nat)
    requires i <= j && !Restarted(d, root, m, i).status.Delayed?
    ensures Restarted(d, root, m, j) == Restarted(d, root, m, i)
    decreases i
  {
    hide Step;
    if m.wake != [] && i > 0 {
      var r := Step(d, root, m);
      if !(r.status.Bound? || r.status.Stuck?) { MoreRestarts(d, root, r.m, i - 1, j - 1); }
    }
  }

  /** A run ends in one way at most. */
  lemma EndsOnce(d: Design, root: Stmt, r: Result, o: Outcome, u: Outcome)
    requires EndsWith(d, root, r, o) && EndsWith(d, root, r, u)
    ensures o.w == u.w && (o.Fin? <==> u.Fin?)
  {
    hide Restarted, PostProc;
    var i: nat :| Reports(Onward(d, root, r, i), o);
    var j: nat :| Reports(Onward(d, root, r, j), u);
    var m := if r.status.Done? then PostProc(r.m) else r.m;
    if r.status.Done? || r.status.Delayed? {
      if i <= j { MoreRestarts(d, root, m, i, j); } else { MoreRestarts(d, root, m, j, i); }
    }
  }

  // ----- both runs end alike -----

  lemma {:induction false} DriveAlike(d: Design, a: Stmt, b: Stmt, k: nat, xs: set<nat>, m: State, n: State)
    returns (i: nat)
    requires Swapped(a, b, k, xs) && Going(m, n, a, b, k, xs) && (m.stk == [] ==> m.wake == [])
    requires Fragment(d, b) && !d.atomic && Resting(d, b, n)
    ensures Reports(Restarted(d, a, m, i), Remaining(d, b, n))
    decreases n.world.ticks, n.wake != [] && n.wake[0].Requeue?, |n.stk|
  {
    hide Step, Swapped, Fragment, Resting, Alike, Unwind, RunProcess;
    i := 0;
    NearWorld(m, n, a, b, k, xs);
    if m.wake != [] {
      StepOk(d, b, n);
      StepAlike(d, a, b, k, xs, m, n);
      var r, q := Step(d, a, m), Step(d, b, n);
      NearWorld(r.m, q.m, a, b, k, xs);
      if r.status.Bound? {
        i := 1;
      } else {
        i := DriveAlike(d, a, b, k, xs, r.m, q.m);
        i := i + 1;
      }
    }
  }

  lemma NearWorld(m: State, n: State, a: Stmt, b: Stmt, k: nat, xs: set<nat>)
    requires Near(m, n, a, b, k, xs)
    ensures m.world == n.world && m.wake == n.wake && |m.stk| == |n.stk|
  {
    hide Small;
  }

  lemma OuterNone(d: Design, m: State, stk: seq<Stmt>, o: Outcome)
    requires |stk| == 1
    ensures Outer(d, m, stk[1..], o) == o
  {
  }

  lemma ConcludesDone(d: Design, a: Stmt, b: Stmt, k: nat, xs: set<nat>, n: State, r: Result, q: Result, o: Outcome)
    requires BothGoing(r, q, a, b, k, xs) && q.status.Done?
    requires n.stk == [b] && n.wake == [] && b.Block? && o == Norm(TopRun(d, n, b, n.world))
    requires PostItems(d, b, n, q, TopRun(d, n, b, n.world))
    ensures Reports(Onward(d, a, r, 0), o)
  {
    hide Alike, Ids, Clean, TopRun;
    NearWorld(r.m, q.m, a, b, k, xs);
    assert r.m.stk == [] && PostProc(r.m) == r.m;
  }

  lemma ReportsBound(r: Result, w: World)
    requires r.status.Bound? && r.m.world == w
    ensures Reports(r, Outcome.Cut(w))
  {
  }

  /** `r`, the result of the items of `a`, runs on like that of the items of `b`. */
  lemma Concludes(d: Design, a: Stmt, b: Stmt, k: nat, xs: set<nat>, n: State, r: Result, q: Result, o: Outcome)
    requires Swapped(a, b, k, xs) && Fragment(d, b) && !d.atomic && BothGoing(r, q, a, b, k, xs)
    requires Delivered(d, b, n, o) && n.stk == [b] && PostItems(d, b, n, q, TopRun(d, n, b, n.world))
    ensures EndsWith(d, a, r, o)
  {
    hide Swapped, Fragment, Resting, Alike, Unwind, RunProcess, TopRun, Outer, StackSuspended, Restarted, Still, Step,
      PostProc, Quiet, Top, Chain, Reports;
    NearWorld(r.m, q.m, a, b, k, xs);
    match q.status
    case Done =>
      OuterNone(d, n, n.stk, Norm(TopRun(d, n, b, n.world)));
      ConcludesDone(d, a, b, k, xs, n, r, q, o);
      assert Reports(Onward(d, a, r, 0), o);
    case Delayed =>
      var seg :| StackSuspended(d, b, n, q.m, seg, TopRun(d, n, b, n.world));
      SuspendedOk(d, b, n, q.m, seg, o);
      var i := DriveAlike(d, a, b, k, xs, r.m, q.m);
      assert Reports(Onward(d, a, r, i), o);
    case Bound =>
      OuterNone(d, n, n.stk, Norm(TopRun(d, n, b, n.world)));
      ReportsBound(r, r.m.world);
      assert Reports(Onward(d, a, r, 0), o);
    case _ =>
  }

  // ----- the outermost block around the statement at position k -----

  /** The process of which only the statement at position `k` is not in the fragment. */
  ghost predicate Around(d: Design, a: Stmt, k: nat) {
    a.Block? && a.dec.Free? && Unique(a) && k < |a.items| &&
    forall i | 0 <= i < |a.items| && i != k :: Item(d, a.items[i])
  }

  /** The process runs in its outermost block, at position `c`; everything in
      the block is idle, except for the fields of `xs`. */
  ghost predicate At(m: State, a: Stmt, c: nat, xs: set<nat>) {
    m.stk == [a] && m.wake == [] && Of(m, a.id).pushed && Of(m, a.id).cur == c &&
    Idle(Of(m, a.id).(pushed := false)) && Clean(m, Kids(a) - xs)
  }

  function With(a: Stmt, k: nat, s: Stmt): Stmt
    requires a.Block? && k < |a.items|
  {
    Block(a.id, a.dec, a.items[k := s])
  }

  /** The work behind the statement at position `k` that has ended with `o`. */
  function Rejoined(d: Design, a: Stmt, k: nat, o: Outcome): Outcome
    requires a.Block?
  {
    if o.Cut? then o else Norm(RunFrom(d, a, k + 1, o.w))
  }

  lemma WithFragment(d: Design, a: Stmt, k: nat, s: Stmt)
    requires Around(d, a, k) && Item(d, s) && Unique(s) && Ids(s) <= Ids(a.items[k])
    ensures Fragment(d, With(a, k, s))
  {
    hide Unique, Ids, Still, Sheltered;
    var b := With(a, k, s);
    WithUnique(a, k, s);
    assert Children(b) == b.items;
    forall i | 0 <= i < |b.items| ensures Item(d, b.items[i]) { if i != k { assert b.items[i] == a.items[i]; } }
  }

  lemma WithUnique(a: Stmt, k: nat, s: Stmt)
    requires a.Block? && k < |a.items| && Unique(a) && Unique(s) && Ids(s) <= Ids(a.items[k])
    ensures Unique(With(a, k, s))
  {
    hide Ids;
    var cs, es := Children(a), Children(With(a, k, s));
    forall i | 0 <= i < |es| ensures Ids(es[i]) <= Ids(cs[i]) && Unique(es[i]) && a.id !in Ids(es[i]) {
      ApartFromChild(a, i);
    }
    forall i, j | 0 <= i < j < |es| ensures Ids(es[i]) !! Ids(es[j]) { ChildrenApart(a, i, j); }
  }

  lemma WithSwapped(d: Design, a: Stmt, k: nat, s: Stmt, xs: set<nat>)
    requires Around(d, a, k) && xs <= Ids(a.items[k])
    ensures Swapped(a, With(a, k, s), k, xs)
  {
    var b := With(a, k, s);
    hide Item;
    assert a.id !in xs by { assert Children(a)[k] == a.items[k]; hide Ids; }
    forall i | 0 <= i < |a.items| && i != k
      ensures a.items[i] == b.items[i] && Small(a.items[i], a, b, xs)
    {
      assert Children(a)[i] == a.items[i] && Children(b)[i] == a.items[i] && Children(a)[k] == a.items[k];
      assert Ids(a.items[i]) !! Ids(a.items[k]) by { hide Ids, Size; }
      hide Ids;
    }
  }

  lemma {:induction false} SameRest(d: Design, a: Stmt, k: nat, s: Stmt, i: nat, w: World)
    requires a.Block? && k < |a.items| && k < i
    ensures RunFrom(d, a, i, w) == RunFrom(d, With(a, k, s), i, w)
    decreases |a.items| - i
  {
    hide Run;
    if i < |a.items| {
      assert Children(a)[i] == Children(With(a, k, s))[i];
      var o := Run(d, Children(a)[i], w);
      if o.Fin? { SameRest(d, a, k, s, i + 1, o.w); }
    }
  }

  // ----- behind the statement -----

  lemma AtClean(d: Design, m: State, a: Stmt, c: nat, xs: set<nat>, k: nat, s: Stmt)
    requires Around(d, a, k) && At(m, a, c, xs) && xs <= Ids(a.items[k]) && Ids(s) <= Ids(a.items[k]) - xs
    ensures Clean(m, Kids(With(a, k, s)))
  {
    var b := With(a, k, s);
    hide Item;
    forall x | x in Kids(b) ensures x in Kids(a) - xs {
      var i :| 0 <= i < |Children(b)| && x in Ids(Children(b)[i]);
      InOther(d, a, k, s, i, x, xs);
    }
  }

  lemma InOther(d: Design, a: Stmt, k: nat, s: Stmt, i: nat, x: nat, xs: set<nat>)
    requires Around(d, a, k) && xs <= Ids(a.items[k]) && Ids(s) <= Ids(a.items[k]) - xs
    requires i < |a.items| && x in Ids(With(a, k, s).items[i])
    ensures x in Kids(a) - xs
  {
    assert Children(a)[i] == a.items[i] && Children(a)[k] == a.items[k];
    IdsChild(a, i);
    IdsChild(a, k);
    hide Ids, Item;
  }

  /** The twin process with `s` at position `k`, in the same state. */
  lemma TwinDelivered(d: Design, a: Stmt, c: nat, k: nat, s: Stmt, xs: set<nat>, m: State)
    requires Around(d, a, k) && At(m, a, c, xs) && c <= |a.items|
    requires Item(d, s) && Unique(s) && xs <= Ids(a.items[k]) && Ids(s) <= Ids(a.items[k]) - xs
    ensures var b := With(a, k, s);
      var n := m.(stk := [b]);
      Fragment(d, b) && OnStack(n, b) && (c < |b.items| ==> Ready(d, n, b.items[c])) &&
      TopRun(d, n, b, m.world) == RunFrom(d, b, c, m.world) &&
      Delivered(d, b, n, Norm(RunFrom(d, b, c, m.world))) && Alike(m, n, a, b, xs, Of(m, a.id))
  {
    hide Ids, Item, Unique, RunFrom, TopRun, Small;
    var b := With(a, k, s);
    var n := m.(stk := [b]);
    WithFragment(d, a, k, s);
    FragmentIs(d, b);
    AtClean(d, m, a, c, xs, k, s);
    CleanFrame(m, n, Kids(b));
    KidsOthers(n, b, c);
    if c < |b.items| { IdleRuns(d, n, b.items[c], m.world); }
    FreshTop(d, n, b, m.world);
    OuterNone(d, n, n.stk, Norm(TopRun(d, n, b, n.world)));
  }

  lemma Resumes(d: Design, a: Stmt, k: nat, xs: set<nat>, m: State)
    requires Around(d, a, k) && !d.atomic && At(m, a, k + 1, xs) && xs <= Kids(a.items[k])
    ensures EndsWith(d, a, Items(d, a, k + 1, m), Norm(RunFrom(d, a, k + 1, m.world)))
  {
    hide Ids, Item, Unique, RunFrom, TopRun, Small, Items, OnStack, EndsWith, Swapped, PostItems, Fragment, Ready;
    var s := Null(a.items[k].id, Free);
    NullIs(d, s);
    SelfId(a.items[k]);
    var b := With(a, k, s);
    var n := m.(stk := [b]);
    TwinDelivered(d, a, k + 1, k, s, xs, m);
    WithSwapped(d, a, k, s, xs);
    FragmentIs(d, b);
    ItemsOk(d, b, k + 1, n);
    SameRest(d, a, k, s, k + 1, m.world);
    RootItems(d, a, b, k, xs, k + 1, m, n);
    Concludes(d, a, b, k, xs, n, Items(d, a, k + 1, m), Items(d, b, k + 1, n), Norm(RunFrom(d, b, k + 1, m.world)));
  }

  lemma NullIs(d: Design, s: Stmt)
    requires s.Null?
    ensures Item(d, s) && Unique(s) && Ids(s) == {s.id}
  {
  }

  /** The items of `a` after the one at position `k` has returned `r`. */
  function GoOn(d: Design, a: Stmt, k: nat, r: Result): Result
    requires a.Block?
  {
    if !r.status.Done? then r
    else if r.m.stk == [] || r.m.stk[0] != a then Result(r.m, Stuck)
    else Items(d, a, k + 1, Set(r.m, a.id, Of(r.m, a.id).(cur := k + 1)))
  }

  lemma Passes(d: Design, a: Stmt, k: nat, xs: set<nat>, m: State, r: Result)
    requires Around(d, a, k) && !d.atomic && At(m, a, k, xs) && xs <= Kids(a.items[k])
    requires r.status.Done? && r.m.stk == m.stk && r.m.wake == m.wake && SameOff(m, r.m, Ids(a.items[k]))
    requires Clean(r.m, Ids(a.items[k]) - xs)
    ensures EndsWith(d, a, GoOn(d, a, k, r), Norm(RunFrom(d, a, k + 1, r.m.world)))
  {
    hide Ids, RunFrom, Items, EndsWith, Item, Unique;
    AroundId(d, a, k);
    var n := Set(r.m, a.id, Of(r.m, a.id).(cur := k + 1));
    Resumes(d, a, k, xs, n);
  }

  lemma AroundBlock(d: Design, a: Stmt, k: nat)
    requires Around(d, a, k)
    ensures a.Block? && k < |a.items|
  {
    hide Item, Unique;
  }

  lemma AroundId(d: Design, a: Stmt, k: nat)
    requires Around(d, a, k)
    ensures a.id !in Ids(a.items[k]) && Unique(a.items[k]) && Ids(a.items[k]) <= Kids(a) && Size(a.items[k]) < Size(a)
  {
    assert Children(a)[k] == a.items[k];
    IdsChild(a, k);
    hide Ids, Size;
  }

  // ----- suspended inside the statement -----

  ghost predicate LikeOff(r: Result, q: Result, xs: set<nat>) {
    r.status == q.status && r.m.world == q.m.world && r.m.wake == q.m.wake && r.m.stk == q.m.stk &&
    SameOff(r.m, q.m, xs)
  }

  lemma AlikeOff(r: State, q: State, n: State, a: Stmt, b: Stmt, xs: set<nat>, g: Fields)
    requires Twins(a, b, xs) && Alike(q, n, a, b, xs, g) && SameOff(r, q, xs)
    requires r.world == q.world && r.wake == q.wake && r.stk == q.stk
    ensures Alike(r, n, a, b, xs, g)
  {
    hide Small;
  }

  predicate Enterable(s: Stmt) { s.dec.Free? && (s.Block? || s.If? || s.Case?) && Sheltered(s) }

  /** Where the process was suspended inside `s`, it runs on as if `s` itself
      stood at position `k`. */
  lemma Enters(d: Design, a: Stmt, k: nat, s: Stmt, xs: set<nat>, m: State, r: Result)
    requires Around(d, a, k) && !d.atomic && At(m, a, k, xs) && xs <= Ids(a.items[k])
    requires Item(d, s) && Unique(s) && Enterable(s) && Ids(s) <= Ids(a.items[k]) - xs && Size(s) < Size(a)
    requires !a.items[k].Loop?
    requires r.status.Delayed? && LikeOff(r, Trigger(d, s, m), xs)
    ensures EndsWith(d, a, r, Rejoined(d, a, k, Run(d, s, m.world)))
  {
    hide Ids, Item, Unique, RunFrom, TopRun, Items, OnStack, EndsWith, Swapped, PostItems, Fragment, Ready, Trigger,
      Run, Size, Small, Enterable;
    var b := With(a, k, s);
    var n := m.(stk := [b]);
    EnterSmall(d, a, k, s, xs);
    TwinDelivered(d, a, k, k, s, xs, m);
    TriggerAlike(d, s, m, n, a, b, xs, Of(m, a.id));
    var q := Trigger(d, s, n);
    AlikeOff(r.m, Trigger(d, s, m).m, q.m, a, b, xs, Of(m, a.id));
    assert Children(b)[k] == s;
    EnterItems(d, b, k, n, q);
    assert Leaves(a, b, k) by { NotLoop(s); }
    EnterGoing(d, a, b, k, xs, n, m, r, q);
    EnterRest(d, a, k, s, m.world);
    Concludes(d, a, b, k, xs, n, r, q, Norm(RunFrom(d, b, k, m.world)));
  }

  lemma EnterSmall(d: Design, a: Stmt, k: nat, s: Stmt, xs: set<nat>)
    requires Around(d, a, k) && xs <= Ids(a.items[k]) && Enterable(s)
    requires Ids(s) <= Ids(a.items[k]) - xs && Size(s) < Size(a)
    ensures Small(s, a, With(a, k, s), xs) && Swapped(a, With(a, k, s), k, xs) && Twins(a, With(a, k, s), xs)
  {
    hide Ids, Item, Unique, Small;
    AroundId(d, a, k);
    WithSwapped(d, a, k, s, xs);
    SmallOne(a, With(a, k, s), k, s, xs);
  }

  lemma SmallOne(a: Stmt, b: Stmt, k: nat, s: Stmt, xs: set<nat>)
    requires k < |Children(b)| && Children(b)[k] == s && Size(s) < Size(a) && Ids(s) !! xs && a.id !in Ids(s)
    ensures Small(s, a, b, xs)
  {
    hide Ids;
  }

  lemma NotLoop(s: Stmt)
    requires Enterable(s)
    ensures !s.Loop?
  {
    hide Sheltered;
  }

  lemma EnterItems(d: Design, b: Stmt, k: nat, n: State, q: Result)
    requires Fragment(d, b) && n.stk == [b] && OnStack(n, b) && k == Of(n, b.id).cur < |b.items| &&
      Ready(d, n, b.items[k])
    requires q == Trigger(d, b.items[k], n) && q.status.Delayed?
    ensures PostItems(d, b, n, q, TopRun(d, n, b, n.world))
  {
    hide Ids, Item, Unique, RunFrom, TopRun, OnStack, PostItems, Ready, Trigger, Fragment;
    FragmentIs(d, b);
    assert Children(b)[k] == b.items[k];
    ItemsOk(d, b, k, n);
  }

  lemma EnterGoing(d: Design, a: Stmt, b: Stmt, k: nat, xs: set<nat>, n: State, m: State, r: Result, q: Result)
    requires b.Block? && k < |b.items| && Enterable(b.items[k]) && At(m, a, k, xs) && a.id == b.id && a.id !in xs
    requires Leaves(a, b, k) && n.stk == [b] && PostItems(d, b, n, q, TopRun(d, n, b, n.world))
    requires r.status == q.status == Delayed && Alike(r.m, q.m, a, b, xs, Of(m, a.id))
    ensures BothGoing(r, q, a, b, k, xs)
  {
    hide Ids, RunFrom, TopRun, Small, Still, LaterStack, Others, Chain, WaitsIn, Sheltered;
    RootFields(r.m, q.m, a, b, xs, Of(m, a.id));
    var seg :| StackSuspended(d, b, n, q.m, seg, TopRun(d, n, b, n.world));
    if |seg| == 1 { ShelteredNever(d, q.m, b.items[k]); }
  }

  lemma RootFields(m: State, n: State, a: Stmt, b: Stmt, xs: set<nat>, g: Fields)
    requires Alike(m, n, a, b, xs, g) && a.id == b.id
    ensures Of(m, a.id) == g && (a.id !in xs ==> Of(n, b.id) == g) && |m.stk| == |n.stk|
  {
    hide Small;
  }

  lemma EnterRest(d: Design, a: Stmt, k: nat, s: Stmt, w: World)
    requires a.Block? && k < |a.items|
    ensures Norm(RunFrom(d, With(a, k, s), k, w)) == Rejoined(d, a, k, Run(d, s, w))
  {
    hide Run;
    var b := With(a, k, s);
    assert Children(b)[k] == s;
    var o := Run(d, s, w);
    if o.Fin? { SameRest(d, a, k, s, k + 1, o.w); }
    hide RunFrom;
    RunFromStep(d, b, k, w);
  }

  lemma RunFromStep(d: Design, b: Stmt, k: nat, w: World)
    requires b.Block? && k < |b.items|
    ensures var o := Run(d, b.items[k], w);
      RunFrom(d, b, k, w) == if o.Cut? then o else Join(o.paused, RunFrom(d, b, k + 1, o.w))
  {
    hide Run;
  }

  // ----- ifs and cases -----

  lemma {:induction false} LeafRuns(d: Design, t: Stmt, m: State)
    ensures var s := Leaf(d, t, m.world.store);
      Trigger(d, t, m) == Trigger(d, s, m) && Run(d, t, m.world) == Run(d, s, m.world)
    decreases t
  {
    hide Picked;
    if t.dec.Free? && (t.If? || t.Case?) {
      var c := Children(t)[Picked(d, t, m.world.store)];
      LeafRuns(d, c, m);
      assert Act(d, t, m) == Trigger(d, c, m);
      assert Body(d, t, m.world) == Run(d, c, m.world);
      hide Trigger, Run;
      BranchPassed(d, t, m);
    }
  }

  lemma BranchPassed(d: Design, t: Stmt, m: State)
    requires t.dec.Free?
    ensures Trigger(d, t, m) == Act(d, t, m) && Run(d, t, m.world) == Body(d, t, m.world)
  {
    hide Act, Body;
  }

  lemma {:induction false} LeafInside(d: Design, t: Stmt, store: Store)
    requires Unique(t)
    ensures var s := Leaf(d, t, store);
      Unique(s) && Ids(s) <= Ids(t) && Size(s) <= Size(t) && (s != t ==> Ids(s) <= Kids(t))
    decreases t
  {
    hide Picked;
    if t.dec.Free? && (t.If? || t.Case?) {
      var i := Picked(d, t, store);
      IdsChild(t, i);
      LeafInside(d, Children(t)[i], store);
      hide Ids, Size;
      hide Unique;
    }
  }

  lemma ChildrenApart(t: Stmt, i: nat, j: nat)
    requires Unique(t) && i < |Children(t)| && j < |Children(t)| && i != j
    ensures Ids(Children(t)[i]) !! Ids(Children(t)[j])
  {
    hide Ids;
    if i < j {
      assert Ids(Children(t)[i]) !! Ids(Children(t)[j]);
    } else {
      assert Ids(Children(t)[j]) !! Ids(Children(t)[i]);
    }
  }

  /** Different leaves have nothing in common. */
  lemma {:induction false} LeavesApart(d: Design, t: Stmt, u: Store, v: Store)
    requires Unique(t)
    ensures Leaf(d, t, u) == Leaf(d, t, v) || Ids(Leaf(d, t, u)) !! Ids(Leaf(d, t, v))
    decreases t
  {
    hide Picked, Ids, Unique, Children, Size;
    if t.dec.Free? && (t.If? || t.Case?) {
      var i, j := Picked(d, t, u), Picked(d, t, v);
      IdsChild(t, i);
      IdsChild(t, j);
      if i == j {
        LeavesApart(d, Children(t)[i], u, v);
      } else {
        LeafInside(d, Children(t)[i], u);
        LeafInside(d, Children(t)[j], v);
        ChildrenApart(t, i, j);
      }
    }
  }


  // ----- one restart more -----

  /** The run from state `m` ends in the world of `o`. */
  ghost predicate RunEnds(d: Design, root: Stmt, m: State, o: Outcome) {
    exists n: nat :: Reports(Restarted(d, root, m, n), o)
  }

  lemma OneMore(d: Design, a: Stmt, m: State, o: Outcome)
    requires m.wake != [] && Deliver(d, m).status.Done?
    ensures RunEnds(d, a, m, o) <==> EndsWith(d, a, Trigger(d, a, Deliver(d, m).m), o)
  {
    hide Trigger, Deliver, PostProc;
    var r := Trigger(d, a, Deliver(d, m).m);
    if n: nat :| Reports(Restarted(d, a, m, n), o) {
      assert n > 0;
      assert Reports(Onward(d, a, r, n - 1), o);
    }
    if n: nat :| Reports(Onward(d, a, r, n), o) {
      assert Reports(Restarted(d, a, m, n + 1), o);
    }
  }

  /** The first activation of the whole process, with every statement idle. */
  lemma FromStart(d: Design, a: Stmt, w: World, o: Outcome)
    requires Around(d, a, 0)
    ensures var m := Push(a, Fresh(Woken(d, w)));
      At(m, a, 0, {}) && m.world == Woken(d, w) &&
      (RunEnds(d, a, Start(w), o) <==> EndsWith(d, a, Items(d, a, 0, m), o))
  {
    hide RunEnds, EndsWith, Items, Item, Unique, Ids;
    var v := Fresh(Woken(d, w));
    assert Deliver(d, Start(w)) == Result(v, Done);
    OneMore(d, a, Start(w), o);
    PushedFirst(d, a, v);
  }

  lemma PushedFirst(d: Design, a: Stmt, v: State)
    requires a.Block? && a.dec.Free? && v.stk == [] && !Of(v, a.id).pushed
    ensures Trigger(d, a, v) == Items(d, a, 0, Push(a, v)) && Push(a, v).stk == [a]
  {
    hide Items;
  }

  // ----- endings -----

  lemma SameEnd(d: Design, a: Stmt, r: Result, o: Outcome, u: Outcome)
    requires EndsWith(d, a, r, o)
    ensures EndsWith(d, a, r, u) <==> o.w == u.w && (o.Fin? <==> u.Fin?)
  {
    hide Onward;
    if EndsWith(d, a, r, u) { EndsOnce(d, a, r, o, u); }
    var n: nat :| Reports(Onward(d, a, r, n), o);
  }

  lemma LastRuns(d: Design, a: Stmt, w: World)
    requires a.Block? && a.items != []
    ensures var k := |a.items| - 1;
      var o := Run(d, a.items[k], w);
      RunFrom(d, a, k, w) == o && Rejoined(d, a, k, o) == Norm(o)
  {
    hide Run;
    RunFromStep(d, a, |a.items| - 1, w);
  }

  lemma LastJoined(d: Design, a: Stmt, o: Outcome)
    requires a.Block? && a.items != []
    ensures Rejoined(d, a, |a.items| - 1, o) == Norm(o)
  {
  }

  lemma BoundEnds(d: Design, a: Stmt, k: nat, r: Result)
    requires r.status.Bound? && a.Block?
    ensures EndsWith(d, a, GoOn(d, a, k, r), Rejoined(d, a, k, Outcome.Cut(r.m.world)))
  {
    hide Items, Restarted;
    assert Reports(Onward(d, a, r, 0), Outcome.Cut(r.m.world));
  }

  lemma {:induction false} RestartTicks(d: Design, a: Stmt, m: State, n: nat)
    ensures Restarted(d, a, m, n).m.world.ticks <= m.world.ticks
    decreases n
  {
    if m.wake != [] && n > 0 {
      StepTicks(d, a, m);
      hide Step;
      if Step(d, a, m).status.Done? || Step(d, a, m).status.Delayed? { RestartTicks(d, a, Step(d, a, m).m, n - 1); }
    }
  }

  lemma StepTicks(d: Design, a: Stmt, m: State)
    requires m.wake != []
    ensures var r := Step(d, a, m);
      r.m.world.ticks <= m.world.ticks && (!m.wake[0].Requeue? ==> r.status.Bound? || r.m.world.ticks < m.world.ticks)
  {
    hide Trigger;
  }

  /** A run that has to wait first cannot end with all its ticks left. */
  lemma WaitCosts(d: Design, a: Stmt, m: State, o: Outcome)
    requires m.wake != [] && !m.wake[0].Requeue? && o.Fin? && RunEnds(d, a, m, o)
    ensures o.w.ticks < m.world.ticks
  {
    hide Step;
    var n: nat :| Reports(Restarted(d, a, m, n), o);
    StepTicks(d, a, m);
    var r := Step(d, a, m);
    if n > 0 && (r.status.Done? || r.status.Delayed?) { RestartTicks(d, a, r.m, n - 1); }
  }

  // ----- a wait in the outermost block -----

  lemma CutAtOnce(d: Design, a: Stmt, n: State, w: World)
    requires n.wake != [] && !n.wake[0].Requeue? && n.world == w && w.ticks == 0
    ensures RunEnds(d, a, n, Outcome.Cut(w))
  {
    hide Trigger;
    assert Reports(Restarted(d, a, n, 1), Outcome.Cut(w));
  }

  lemma RootAgain(d: Design, a: Stmt, k: nat, u: State)
    requires a.Block? && a.dec.Free? && u.stk == [a] && Of(u, a.id).pushed && Of(u, a.id).cur == k < |a.items|
    ensures Trigger(d, a, u) == GoOn(d, a, k, Trigger(d, a.items[k], u))
  {
    assert Trigger(d, a, u) == Items(d, a, k, u) by { hide Items; }
    assert Children(a)[k] == a.items[k];
    hide Trigger;
  }

  lemma DelayedEnds(d: Design, a: Stmt, r: Result, o: Outcome)
    requires r.status.Delayed?
    ensures EndsWith(d, a, r, o) <==> RunEnds(d, a, r.m, o)
  {
    hide Restarted;
    if RunEnds(d, a, r.m, o) {
      var n: nat :| Reports(Restarted(d, a, r.m, n), o);
      assert Reports(Onward(d, a, r, n), o);
    }
  }

  /** The process has asked for one wait for control `c`. Its restart: either the
      step bound, or another trigger of the statement at position `k` in the
      world that the plain semantics has after the wait. */
  lemma WaitRestarts(d: Design, a: Stmt, k: nat, n: State, c: Control, xs: set<nat>, o: Outcome)
    requires a.Block? && a.dec.Free? && k < |a.items| && At(n.(wake := []), a, k, xs)
    requires |n.wake| == 1 && !n.wake[0].Requeue? && n.wake[0].at == n.world.now + Span(d, c, n.world)
    ensures var v := Wait(d, c, n.world);
      if v.Cut? then RunEnds(d, a, n, v)
      else
        var u := n.(wake := [], world := v.w);
        At(u, a, k, xs) && (RunEnds(d, a, n, o) <==> EndsWith(d, a, GoOn(d, a, k, Trigger(d, a.items[k], u)), o))
  {
    hide RunEnds, EndsWith, Trigger, Ids, Items;
    var v := Wait(d, c, n.world);
    if v.Cut? {
      CutAtOnce(d, a, n, n.world);
    } else {
      var u := n.(wake := [], world := v.w);
      assert n.wake[1..] == [];
      assert Deliver(d, n) == Result(u, Done);
      OneMore(d, a, n, o);
      RootAgain(d, a, k, u);
    }
  }
}
