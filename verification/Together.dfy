/** Several processes on one store: each of them, whatever the others do in
    between, is a run of its own in an environment that hands it the stores it
    finds. */
module Together {
  import opened Wrappers
  import Bounds
  import opened Program
  import opened Machine
  import opened Shape
  import opened Refinement
  import opened Restarts

  /** The design, for a process that finds the stores `f`. */
  function Within(d: Design, f: World -> Store): Design { d.(disturb := f) }

  // ----- between two restarts a process is alone -----

  /** The clock stands still and restarts are only asked for, none in the past. */
  ghost predicate Onwards(m: State, n: State) {
    n.world.now == m.world.now && n.world.wakes == m.world.wakes && m.wake <= n.wake &&
    forall i | |m.wake| <= i < |n.wake| :: n.wake[i].at >= m.world.now && !n.wake[i].Requeue?
  }

  lemma OnwardsOn(m: State, n: State, q: State)
    requires Onwards(m, n) && Onwards(n, q)
    ensures Onwards(m, q)
  {
  }

  /** From a state with the clock and the pending restarts of `m`. */
  lemma OnwardsFrom(m: State, n: State, q: State)
    requires Onwards(n, q) && n.world.now == m.world.now && n.world.wakes == m.world.wakes && n.wake == m.wake
    ensures Onwards(m, q)
  {
  }

  lemma {:induction false} TriggerAlone(d: Design, f: World -> Store, s: Stmt, m: State)
    ensures Trigger(Within(d, f), s, m) == Trigger(d, s, m) && Onwards(m, Trigger(d, s, m).m)
    decreases m.world.ticks, Size(s), 5
  {
    hide Act, Onwards, Size;
    var e := Of(m, s.id);
    if s.dec.Free? {
      ActAlone(d, f, s, m);
    } else if e.armed {
      ActAlone(d, f, s, Set(m, s.id, e.(armed := false)));
      OnwardsFrom(m, Set(m, s.id, e.(armed := false)), Trigger(d, s, m).m);
    } else {
      ArmAlone(d, f, s.dec, m, Set(m, s.id, e.(armed := true)));
    }
  }

  lemma ArmAlone(d: Design, f: World -> Store, c: Control, m: State, n: State)
    requires n.world == m.world && n.wake == m.wake
    ensures Arm(Within(d, f), c, n) == Arm(d, c, n) && Onwards(m, Arm(d, c, n))
  {
  }

  lemma OnwardsSelf(m: State, n: State)
    requires n.world.now == m.world.now && n.world.wakes == m.world.wakes && n.wake == m.wake
    ensures Onwards(m, n)
  {
  }

  lemma MoveAlone(d: Design, f: World -> Store, move: Move, w: World)
    ensures Read(Within(d, f), move, w) == Read(d, move, w) && MoveNow(Within(d, f), move, w) == MoveNow(d, move, w)
    ensures MoveNow(d, move, w).now == w.now && MoveNow(d, move, w).wakes == w.wakes &&
      MoveNow(d, move, w).ticks == w.ticks
  {
  }

  lemma {:induction false} PickedAlone(d: Design, f: World -> Store, s: Stmt, store: Store)
    requires s.If? || s.Case?
    ensures Picked(Within(d, f), s, store) == Picked(d, s, store)
  {
    if s.Case? { MatchingAlone(d, f, s, store, 0); }
  }

  lemma {:induction false} MatchingAlone(d: Design, f: World -> Store, s: Stmt, store: Store, k: nat)
    requires s.Case?
    ensures Matching(Within(d, f), s, store, k) == Matching(d, s, store, k)
    decreases |s.arms| - k
  {
    if k < |s.arms| { MatchingAlone(d, f, s, store, k + 1); }
  }

  lemma {:induction false} ActAlone(d: Design, f: World -> Store, s: Stmt, m: State)
    ensures Act(Within(d, f), s, m) == Act(d, s, m) && Onwards(m, Act(d, s, m).m)
    decreases m.world.ticks, Size(s), 4
  {
    hide Trigger, Items, LoopStartM, LoopNextM, Onwards, Size, Assignment, Picked, MoveNow, Read, Within;
    match s
    case Null(_, _) => OnwardsSelf(m, m);
    case NonBlocking(_, _, move, store) =>
      MoveAlone(d, f, move, m.world);
      OnwardsSelf(m, Act(d, s, m).m);
    case Assign(_, _, _, _) => AssignmentAlone(d, f, s, m);
    case If(_, _, _, _, _) =>
      PickedAlone(d, f, s, m.world.store);
      TriggerAlone(d, f, Children(s)[Picked(d, s, m.world.store)], m);
    case Case(_, _, _, _, _, _) =>
      PickedAlone(d, f, s, m.world.store);
      TriggerAlone(d, f, Children(s)[Picked(d, s, m.world.store)], m);
    case Loop(_, _, _, _) =>
      var e := Of(m, s.id);
      if e.looped {
        LoopNextAlone(d, f, s, Set(m, s.id, e.(looped := false)));
        OnwardsFrom(m, Set(m, s.id, e.(looped := false)), Act(d, s, m).m);
      } else {
        LoopStartAlone(d, f, s, m);
      }
    case Block(_, _, _) => BlockAlone(d, f, s, m);
  }

  lemma {:induction false} BlockAlone(d: Design, f: World -> Store, s: Stmt, m: State)
    requires s.Block?
    ensures Act(Within(d, f), s, m) == Act(d, s, m) && Onwards(m, Act(d, s, m).m)
    decreases m.world.ticks, Size(s), 3
  {
    hide Items, Onwards, Size, Within;
    var m1 := Push(s, m);
    OnwardsSelf(m, m1);
    if m1.stk != [] && m1.stk[0].Block? && Size(m1.stk[0]) <= Size(s) {
      ItemsAlone(d, f, m1.stk[0], Of(m1, m1.stk[0].id).cur, m1);
      OnwardsOn(m, m1, Act(d, s, m).m);
    }
  }

  lemma AssignmentAlone(d: Design, f: World -> Store, s: Stmt, m: State)
    requires s.Assign?
    ensures Assignment(Within(d, f), s, m) == Assignment(d, s, m) && Onwards(m, Assignment(d, s, m).m)
  {
    hide Onwards, MoveNow, Read, Arm;
    MoveAlone(d, f, s.move, m.world);
    var e := Of(m, s.id);
    if e.pending.Some? || s.store.Free? {
      OnwardsSelf(m, Assignment(d, s, m).m);
    } else {
      ArmAlone(d, f, s.store, m,
        Set(m, s.id, e.(pending := Some(Read(d, s.move, m.world)), armed := e.armed || !s.dec.Free?, storing := true)));
    }
  }

  lemma {:induction false} ItemsAlone(d: Design, f: World -> Store, b: Stmt, c: nat, m: State)
    requires b.Block? && m.stk != []
    ensures Items(Within(d, f), b, c, m) == Items(d, b, c, m) && Onwards(m, Items(d, b, c, m).m)
    decreases m.world.ticks, Size(b), 1, |b.items| - c
  {
    hide Trigger, Onwards, Size, Within;
    if c >= |b.items| {
      OnwardsSelf(m, Items(d, b, c, m).m);
    } else {
      TriggerAlone(d, f, Children(b)[c], m);
      var r := Trigger(d, Children(b)[c], m);
      if r.status.Done? && r.m.stk != [] && r.m.stk[0] == b {
        var n := Set(r.m, b.id, Of(r.m, b.id).(cur := c + 1));
        ItemsAlone(d, f, b, c + 1, n);
        OnwardsFrom(r.m, n, Items(d, b, c, m).m);
        OnwardsOn(m, r.m, Items(d, b, c, m).m);
      }
    }
  }

  lemma {:induction false} LoopStartAlone(d: Design, f: World -> Store, s: Stmt, m: State)
    requires s.Loop?
    ensures LoopStartM(Within(d, f), s, m) == LoopStartM(d, s, m) && Onwards(m, LoopStartM(d, s, m).m)
    decreases m.world.ticks, Size(s), 3
  {
    hide LoopGoM, Onwards, Size, MoveNow;
    match s.kind
    case Forever => LoopGoAlone(d, f, s, m);
    case Repeat(e) =>
      var n := Set(m, s.id, Of(m, s.id).(count := d.times(e, m.world.store) % TWO32));
      OnwardsSelf(m, n);
      LoopGoAlone(d, f, s, n);
      OnwardsOn(m, n, LoopGoM(d, s, n).m);
    case While(_) =>
      OnwardsSelf(m, m);
      LoopGoAlone(d, f, s, m);
    case For(first, _, _) =>
      MoveAlone(d, f, first, m.world);
      var n := m.(world := MoveNow(d, first, m.world));
      OnwardsSelf(m, n);
      LoopGoAlone(d, f, s, n);
      OnwardsOn(m, n, LoopGoM(d, s, n).m);
  }

  lemma {:induction false} LoopGoAlone(d: Design, f: World -> Store, s: Stmt, m: State)
    requires s.Loop?
    ensures LoopGoM(Within(d, f), s, m) == LoopGoM(d, s, m) && Onwards(m, LoopGoM(d, s, m).m)
    decreases m.world.ticks, Size(s), 1
  {
    hide Trigger, LoopNextM, Onwards, Size, Within;
    if m.world.ticks == 0 {
      OnwardsSelf(m, m);
    } else {
      var n := m.(world := m.world.(ticks := m.world.ticks - 1));
      OnwardsSelf(m, n);
      TriggerAlone(d, f, Children(s)[0], n);
      var r := Trigger(d, Children(s)[0], n);
      OnwardsOn(m, n, r.m);
      if r.status.Done? { LoopNextAlone(d, f, s, r.m); }
      OnwardsSelf(r.m, Set(r.m, s.id, Of(r.m, s.id).(looped := true, armed := Of(r.m, s.id).armed || s.dec.Delay?)));
      GoOnwards(d, s, m, r);
    }
  }

  lemma GoOnwards(d: Design, s: Stmt, m: State, r: Result)
    requires s.Loop? && m.world.ticks > 0 &&
      r == Trigger(d, Children(s)[0], m.(world := m.world.(ticks := m.world.ticks - 1)))
    requires Onwards(m, r.m) && (r.status.Done? ==> Onwards(r.m, LoopNextM(d, s, r.m).m))
    ensures Onwards(m, LoopGoM(d, s, m).m)
  {
    hide Trigger, LoopNextM;
  }

  lemma {:induction false} LoopNextAlone(d: Design, f: World -> Store, s: Stmt, m: State)
    requires s.Loop?
    ensures LoopNextM(Within(d, f), s, m) == LoopNextM(d, s, m) && Onwards(m, LoopNextM(d, s, m).m)
    decreases m.world.ticks, Size(s), 2
  {
    hide LoopGoM, Onwards, Size, MoveNow;
    match s.kind
    case Forever => LoopGoAlone(d, f, s, m);
    case Repeat(_) =>
      var n := Set(m, s.id, Of(m, s.id).(count := (Of(m, s.id).count + TWO32 - 1) % TWO32));
      OnwardsSelf(m, n);
      LoopGoAlone(d, f, s, n);
      OnwardsOn(m, n, LoopGoM(d, s, n).m);
    case While(_) =>
      OnwardsSelf(m, m);
      LoopGoAlone(d, f, s, m);
    case For(_, _, next) =>
      MoveAlone(d, f, next, m.world);
      var n := m.(world := MoveNow(d, next, m.world));
      OnwardsSelf(m, n);
      LoopGoAlone(d, f, s, n);
      OnwardsOn(m, n, LoopGoM(d, s, n).m);
  }

  // ----- one restart -----

  /** All that the others contribute to a restart is the store it begins with. */
  lemma StepAlone(d: Design, f: World -> Store, g: World -> Store, root: Stmt, m: State)
    requires m.wake != [] && forall w: World | w.wakes == m.world.wakes :: f(w) == g(w)
    ensures Step(Within(d, f), root, m) == Step(Within(d, g), root, m)
    ensures var r := Step(Within(d, f), root, m);
      r == Result(m, Bound) || r.m.world.wakes == m.world.wakes + 1
  {
    hide Trigger, Onwards, PostProc;
    var v, u := Deliver(Within(d, f), m), Deliver(Within(d, g), m);
    assert v == u;
    if v.status.Done? {
      TriggerAlone(d, f, root, v.m);
      TriggerAlone(d, g, root, v.m);
      OnwardsWakes(v.m, Trigger(d, root, v.m).m);
      PostProcWorld(Trigger(d, root, v.m).m);
    }
  }

  lemma OnwardsWakes(m: State, n: State)
    requires Onwards(m, n)
    ensures n.world.wakes == m.world.wakes && n.world.now == m.world.now
  {
  }

  lemma PostProcWorld(m: State)
    ensures PostProc(m).world == m.world
    ensures PostProc(m).wake == if m.stk == [] then m.wake else m.wake + [Requeue(m.world.now)]
  {
  }

  // ----- the processes and their store -----

  /** A process and how its last activation returned. */
  datatype Proc = Proc(root: Stmt, last: Result)

  datatype System = System(store: Store, now: nat, procs: seq<Proc>)

  /** Restart a process, or change the store in some other way: a net update, a
      continuous assignment, anything that is not a process. */
  datatype Turn = Restart(i: nat) | Change(store: Store)

  predicate Pending(r: Result) { r.m.wake != [] && !r.status.Bound? && !r.status.Stuck? }

  function Activated(d: Design, p: Proc, store: Store): Result
    requires Pending(p.last)
  {
    Step(Within(d, (w: World) => store), p.root, p.last.m)
  }

  /** Turns of processes that have nothing pending are skipped; a process that
      is out of ticks when its wait is over does not run. */
  function Next(d: Design, y: System, t: Turn): System {
    match t
    case Change(store) => y.(store := store)
    case Restart(i) =>
      if i >= |y.procs| || !Pending(y.procs[i].last) then y
      else
        var p := y.procs[i];
        var r := Activated(d, p, y.store);
        System(if r == Result(p.last.m, Bound) then y.store else r.m.world.store, p.last.m.wake[0].at,
               y.procs[i := p.(last := r)])
  }

  /** What one turn does to the system as a whole: a process is triggered in the
      store that is there and leaves its own store behind, unless it is out of
      ticks; all other processes stay as they are. */
  lemma TurnExactly(d: Design, y: System, t: Turn)
    ensures var z := Next(d, y, t);
      |z.procs| == |y.procs| &&
      (t.Change? ==> z == System(t.store, y.now, y.procs)) &&
      (t.Restart? ==>
        (forall j | 0 <= j < |y.procs| && j != t.i :: z.procs[j] == y.procs[j]) &&
        if t.i >= |y.procs| || !Pending(y.procs[t.i].last) then z == y
        else
          var was, root, got := y.procs[t.i].last.m, y.procs[t.i].root, z.procs[t.i].last;
          var k := was.wake[0];
          z.now == k.at && z.procs[t.i].root == root &&
          (z.store == got.m.world.store || (z.store == y.store && got == Result(was, Bound))) &&
          if !k.Requeue? && was.world.ticks == 0 then got == Result(was, Bound)
          else
            var now, ticks := if k.Requeue? then was.world.now else k.at, was.world.ticks - if k.Requeue? then 0 else 1;
            var w := World(now, y.store, was.world.log, was.world.wakes + 1, ticks);
            var r := Trigger(Within(d, (w: World) => y.store), root, State(w, was.stk, was.fields, was.wake[1..]));
            got == if r.status.Done? then Result(PostProc(r.m), Done) else r)
  {
    hide Trigger, PostProc;
  }

  /** The process that runs next finds what the one before it has left. */
  lemma StoreHandedOn(d: Design, y: System, i: nat, j: nat)
    requires Runs(y, Restart(i), i)
    requires var z := Next(d, y, Restart(i));
      Runs(z, Restart(j), j) && i < |z.procs| && z.procs[i].last != Result(y.procs[i].last.m, Bound)
    ensures var z := Next(d, y, Restart(i));
      Found(d, z, j, [Restart(j)]) == [z.procs[i].last.m.world.store]
  {
    hide Next;
    TurnExactly(d, y, Restart(i));
    var z, t := Next(d, y, Restart(i)), [Restart(j)];
    assert t[1..] == [];
    assert Found(d, Next(d, z, t[0]), j, []) == [];
  }

  function Play(d: Design, y: System, turns: seq<Turn>): System
    decreases |turns|
  {
    if turns == [] then y else Play(d, Next(d, y, turns[0]), turns[1..])
  }

  // ----- what one process sees of it -----

  predicate Runs(y: System, t: Turn, i: nat) {
    t == Restart(i) && i < |y.procs| && Pending(y.procs[i].last)
  }

  /** The stores that process `i` finds at its restarts. */
  function Found(d: Design, y: System, i: nat, turns: seq<Turn>): seq<Store>
    decreases |turns|
  {
    if turns == [] then []
    else (if Runs(y, turns[0], i) then [y.store] else []) + Found(d, Next(d, y, turns[0]), i, turns[1..])
  }

  /** The environment in which the process finds just these stores. */
  function Handing(stores: seq<Store>, from: nat): World -> Store {
    (w: World) => if from <= w.wakes < from + |stores| then stores[w.wakes - from] else w.store
  }

  /** The process by itself, for `n` restarts. */
  function Solo(d: Design, root: Stmt, r: Result, n: nat): Result
    decreases n
  {
    if n == 0 || !Pending(r) then r else Solo(d, root, Step(d, root, r.m), n - 1)
  }

  lemma {:induction false} FoundNone(d: Design, y: System, i: nat, turns: seq<Turn>)
    requires i < |y.procs| && !Pending(y.procs[i].last)
    ensures Found(d, y, i, turns) == []
    ensures |Play(d, y, turns).procs| == |y.procs| && Play(d, y, turns).procs[i] == y.procs[i]
    decreases |turns|
  {
    hide Step;
    if turns != [] { FoundNone(d, Next(d, y, turns[0]), i, turns[1..]); }
  }

  /** `f` hands out these stores from restart number `from` on. */
  ghost predicate Hands(f: World -> Store, stores: seq<Store>, from: nat) {
    forall w: World | from <= w.wakes < from + |stores| :: f(w) == stores[w.wakes - from]
  }

  /** Whatever the others do, a process goes through the states of a run of its
      own in the environment that hands it the stores it finds. */
  lemma {:induction false} Projection(d: Design, y: System, i: nat, turns: seq<Turn>, f: World -> Store)
    requires i < |y.procs| && Hands(f, Found(d, y, i, turns), y.procs[i].last.m.world.wakes)
    ensures var p := y.procs[i];
      var z := Play(d, y, turns);
      |z.procs| == |y.procs| && z.procs[i].root == p.root &&
      z.procs[i].last == Solo(Within(d, f), p.root, p.last, |Found(d, y, i, turns)|)
    decreases |turns|
  {
    hide Step, Pending, Hands;
    if turns != [] {
      var t := turns[0];
      var n := Next(d, y, t);
      var rest := Found(d, n, i, turns[1..]);
      if Runs(y, t, i) {
        var p := y.procs[i];
        var r := Activated(d, p, y.store);
        HandsFirst(f, y.store, rest, p.last.m.world.wakes);
        PendingWake(p.last);
        StepAlone(d, f, (w: World) => y.store, p.root, p.last.m);
        if r == Result(p.last.m, Bound) {
          BoundStays(p.last.m);
          FoundNone(d, n, i, turns[1..]);
          HandsNone(f, r.m.world.wakes);
        }
        Projection(d, n, i, turns[1..], f);
        assert [y.store] + rest == Found(d, y, i, turns);
      } else {
        assert [] + rest == rest;
        Projection(d, n, i, turns[1..], f);
      }
    }
  }

  lemma PendingWake(r: Result)
    requires Pending(r)
    ensures r.m.wake != []
  {
  }

  lemma BoundStays(m: State)
    ensures !Pending(Result(m, Bound))
  {
  }

  lemma HandsNone(f: World -> Store, from: nat)
    ensures Hands(f, [], from)
  {
  }

  lemma HandsFirst(f: World -> Store, store: Store, rest: seq<Store>, from: nat)
    requires Hands(f, [store] + rest, from)
    ensures (forall w: World | w.wakes == from :: f(w) == store) && Hands(f, rest, from + 1)
  {
    var s := [store] + rest;
    forall w: World | from + 1 <= w.wakes < from + 1 + |rest| ensures f(w) == rest[w.wakes - from - 1] {
      assert f(w) == s[w.wakes - from];
    }
    forall w: World | w.wakes == from ensures f(w) == store { assert f(w) == s[0]; }
  }

  // ----- what does not depend on the environment -----

  lemma {:induction false} FirmItem(d: Design, e: Design, s: Stmt)
    requires Firm(s) && Item(d, s)
    ensures Item(e, s)
    decreases s
  {
    hide Still, Sheltered, MayWait;
    forall i | 0 <= i < |Children(s)| ensures Item(e, Children(s)[i]) { FirmItem(d, e, Children(s)[i]); }
  }

  lemma FirmFragment(d: Design, e: Design, root: Stmt)
    requires Firm(root) && Fragment(d, root)
    ensures Fragment(e, root)
  {
    hide Item, Firm, Unique;
    FirmItem(d, e, root);
  }

  lemma {:induction false} FirmEncloses(m: State, s: Stmt, inner: Stmt)
    requires Encloses(m, s, inner) && Firm(s)
    ensures Firm(inner)
    decreases s
  {
    hide Sheltered, Ids;
    if s != inner {
      var cs := Children(s);
      var i :| 0 <= i < |cs| && !cs[i].Loop? && Encloses(m, cs[i], inner) && Others(m, cs, i);
      FirmEncloses(m, cs[i], inner);
    }
  }

  lemma {:induction false} FirmChain(m: State, frames: seq<Stmt>, inner: Stmt)
    requires Chain(m, frames, inner) && Firm(Last(frames, inner))
    ensures Firm(inner)
    decreases |frames|
  {
    hide Frame, Firm;
    if frames != [] {
      assert Last(frames, inner) == Last(frames[1..], frames[0]);
      FirmChain(m, frames[1..], frames[0]);
      FirmFrame(m, frames[0], inner);
    }
  }

  lemma FirmFrame(m: State, b: Stmt, inner: Stmt)
    requires Frame(m, b, inner) && Firm(b)
    ensures Firm(inner)
  {
    hide Encloses, Sheltered, Ids;
    var c := Of(m, b.id).cur;
    assert b.items[c] == Children(b)[c];
    FirmEncloses(m, b.items[c], inner);
  }

  lemma FirmWaits(d: Design, e: Design, m: State, s: Stmt)
    requires WaitsIn(d, m, s) && Firm(s)
    ensures WaitsIn(e, m, s)
  {
    hide Ids, Sheltered, Picked;
    if Branching(s) { ShelteredNever(d, m, Children(s)[Picked(d, s, m.world.store)]); }
  }

  lemma FirmTop(d: Design, e: Design, m: State, b: Stmt)
    requires Firm(b) && (Top(d, m, b) || TopWaits(d, m, b))
    ensures Top(d, m, b) ==> Top(e, m, b)
    ensures TopWaits(d, m, b) ==> TopWaits(e, m, b)
  {
    hide Ids, WaitsIn, Sheltered;
    var c := Of(m, b.id).cur;
    if c < |b.items| {
      assert b.items[c] == Children(b)[c];
      if WaitsIn(d, m, b.items[c]) { FirmWaits(d, e, m, b.items[c]); }
    }
  }

  lemma FirmResting(d: Design, e: Design, root: Stmt, m: State)
    requires Firm(root) && Resting(d, root, m)
    ensures Resting(e, root, m)
  {
    hide Ids, Top, TopWaits, Chain, Poised, Firm;
    if m.stk != [] {
      assert Last(m.stk[1..], m.stk[0]) == root;
      FirmChain(m, m.stk[1..], m.stk[0]);
      FirmTop(d, e, m, m.stk[0]);
    }
  }

  // ----- every process refines the plain semantics -----

  /** Where the process stands, if the plain semantics says `o` about all of it:
      what has been done and what is left make up `o`. */
  ghost predicate Stands(d: Design, root: Stmt, r: Result, o: Outcome)
    requires root.Block?
  {
    match r.status
    case Stuck => false
    case Bound => o == Outcome.Cut(r.m.world)
    case _ => Resting(d, root, r.m) && Remaining(d, root, r.m) == o
  }

  lemma {:induction false} SoloStands(d: Design, root: Stmt, r: Result, n: nat, o: Outcome)
    requires Fragment(d, root) && !d.atomic && Stands(d, root, r, o)
    ensures Stands(d, root, Solo(d, root, r, n), o)
    decreases n
  {
    hide Step, Fragment, Resting, Remaining;
    if n > 0 && Pending(r) {
      StepOk(d, root, r.m);
      SoloStands(d, root, Step(d, root, r.m), n - 1, o);
    }
  }

  /** Any processes of the fragment, restarted in any order, with the store
      changed at will in between: at every moment each of them has done a part
      of what the plain semantics says about it in its environment, and has the
      rest still to do. When it has ended, that is all of it. */
  lemma EveryProcessRefines(d: Design, y: System, turns: seq<Turn>, i: nat, w: World)
    requires i < |y.procs| && !d.atomic && Fragment(d, y.procs[i].root) && Firm(y.procs[i].root)
    requires y.procs[i].last == Result(Restarts.Start(w), Delayed)
    ensures var root := y.procs[i].root;
      var e := Within(d, Handing(Found(d, y, i, turns), w.wakes));
      var z := Play(d, y, turns);
      var o := Norm(RunProcess(e, root, Woken(e, w)));
      i < |z.procs| && Stands(e, root, z.procs[i].last, o) &&
      (!Pending(z.procs[i].last) ==>
         o == if z.procs[i].last.status.Bound? then Outcome.Cut(z.procs[i].last.m.world)
         else Fin(z.procs[i].last.m.world, true))
  {
    hide Fragment, Firm, Play, Found, Ids, RunProcess, Handing, Hands, Solo;
    var root := y.procs[i].root;
    var f := Handing(Found(d, y, i, turns), w.wakes);
    var e := Within(d, f);
    FirmFragment(d, e, root);
    HandingHands(Found(d, y, i, turns), w.wakes);
    Projection(d, y, i, turns, f);
    FragmentIs(d, root);
    var o := Norm(RunProcess(e, root, Woken(e, w)));
    StartStands(e, root, w);
    SoloStands(e, root, y.procs[i].last, |Found(d, y, i, turns)|, o);
  }

  /** That environment does not see the step bound. */
  lemma HandingTickless(d: Design, stores: seq<Store>, from: nat)
    requires forall x: nat, w: World, n: nat :: d.arrival(x, w.(ticks := n)) == d.arrival(x, w)
    ensures Bounds.Tickless(Within(d, Handing(stores, from)))
  {
  }

  lemma HandingHands(stores: seq<Store>, from: nat)
    ensures Hands(Handing(stores, from), stores, from)
  {
  }

  lemma StartStands(d: Design, root: Stmt, w: World)
    requires root.Block?
    ensures Stands(d, root, Result(Restarts.Start(w), Delayed), Norm(RunProcess(d, root, Woken(d, w))))
  {
    hide RunProcess, Ids;
  }

  // ----- the common clock -----

  /** What process `p` waits for lies ahead of `now`. */
  ghost predicate Ahead(d: Design, p: Proc, now: nat) {
    Fragment(d, p.root) && Firm(p.root) &&
    (Pending(p.last) ==>
       Resting(d, p.root, p.last.m) && |p.last.m.wake| == 1 && p.last.m.wake[0].at >= now &&
       (p.last.m.wake[0].Requeue? ==> p.last.m.wake[0].at == p.last.m.world.now))
  }

  ghost predicate AllAhead(d: Design, y: System) { forall i | 0 <= i < |y.procs| :: Ahead(d, y.procs[i], y.now) }

  /** The turn takes a process that has waited for the earliest time. */
  predicate Earliest(y: System, t: Turn) {
    t.Restart? && t.i < |y.procs| && Pending(y.procs[t.i].last) ==>
      forall j | 0 <= j < |y.procs| && Pending(y.procs[j].last) ::
        y.procs[t.i].last.m.wake[0].at <= y.procs[j].last.m.wake[0].at
  }

  predicate Orderly(d: Design, y: System, turns: seq<Turn>)
    decreases |turns|
  {
    turns == [] || (Earliest(y, turns[0]) && Orderly(d, Next(d, y, turns[0]), turns[1..]))
  }

  /** A process restarts at the very time it asked for. */
  lemma ActivatedAhead(d: Design, p: Proc, now: nat, store: Store)
    requires Ahead(d, p, now) && Pending(p.last) && !d.atomic
    ensures var r := Activated(d, p, store);
      var at := p.last.m.wake[0].at;
      Ahead(d, p.(last := r), at) && (r != Result(p.last.m, Bound) ==> r.m.world.now == at)
  {
    hide Trigger, Fragment, Firm, Resting, Remaining, PostProc;
    var m := p.last.m;
    var e := Within(d, (w: World) => store);
    FirmFragment(d, e, p.root);
    FirmResting(d, e, p.root, m);
    StepOk(e, p.root, m);
    var v := Deliver(e, m);
    if v.status.Done? {
      var t := Trigger(d, p.root, v.m);
      TriggerAlone(d, (w: World) => store, p.root, v.m);
      assert v.m.wake == [];
      PostProcWorld(t.m);
      if !Step(e, p.root, m).status.Bound? {
        FirmResting(e, d, p.root, Step(e, p.root, m).m);
        RestingOne(d, p.root, Step(e, p.root, m).m);
      }
    }
  }

  lemma RestingOne(d: Design, root: Stmt, m: State)
    requires Resting(d, root, m)
    ensures |m.wake| <= 1
  {
    hide Ids, Top, Chain, Poised, TopWaits;
  }

  /** Turns in order of time never take the clock back, and every restart begins
      at the time the process asked for. */
  lemma NextOnTime(d: Design, y: System, t: Turn)
    requires AllAhead(d, y) && Earliest(y, t) && !d.atomic
    ensures var n := Next(d, y, t);
      AllAhead(d, n) && n.now >= y.now &&
      (t.Restart? && Runs(y, t, t.i) ==>
         var was, last := y.procs[t.i].last, n.procs[t.i].last;
         n.now == was.m.wake[0].at && (last != Result(was.m, Bound) ==> last.m.world.now == n.now))
  {
    hide Fragment, Resting, Activated;
    if t.Restart? && Runs(y, t, t.i) {
      ActivatedAhead(d, y.procs[t.i], y.now, y.store);
    }
  }

  lemma {:induction false} PlayOnTime(d: Design, y: System, turns: seq<Turn>)
    requires AllAhead(d, y) && Orderly(d, y, turns) && !d.atomic
    ensures AllAhead(d, Play(d, y, turns)) && Play(d, y, turns).now >= y.now
    decreases |turns|
  {
    hide AllAhead, Earliest, Next;
    if turns != [] {
      NextOnTime(d, y, turns[0]);
      PlayOnTime(d, Next(d, y, turns[0]), turns[1..]);
    }
  }
}
