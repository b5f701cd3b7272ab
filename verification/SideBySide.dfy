/** Two processes that differ in one statement of their outermost block, running
    side by side: once they are suspended inside that statement, or behind it,
    every restart does the same in both. What stood between the outermost block
    and the block they are suspended in no longer matters. */
module SideBySide {
  import opened Wrappers
  import opened Program
  import opened Machine
  import opened Refinement

  // ----- two processes that differ in their outermost block -----

  /** Outermost blocks `a` and `b` with the same identity; the fields of the
      statements in `xs` belong to neither of the parts still to run. */
  predicate Twins(a: Stmt, b: Stmt, xs: set<nat>) {
    a.Block? && b.Block? && a.id == b.id && a.id !in xs
  }

  /** A statement that may run inside both. */
  predicate Small(s: Stmt, a: Stmt, b: Stmt, xs: set<nat>) {
    Ids(s) !! xs && a.id !in Ids(s) && Size(s) < Size(a) && Size(s) < Size(b)
  }

  /** Two states that agree except for the outermost block itself and the fields
      of `xs`; `g` are the fields of the outermost block. */
  ghost predicate Alike(m: State, n: State, a: Stmt, b: Stmt, xs: set<nat>, g: Fields) {
    m.world == n.world && m.wake == n.wake && m.stk != [] && m.stk[|m.stk| - 1] == a &&
    n.stk == m.stk[..|m.stk| - 1] + [b] && (forall x | x !in xs :: Of(m, x) == Of(n, x)) &&
    Of(m, a.id) == g && (forall i | 0 <= i < |m.stk| - 1 :: Small(m.stk[i], a, b, xs))
  }

  ghost predicate SameResult(r: Result, q: Result, a: Stmt, b: Stmt, xs: set<nat>, g: Fields) {
    r.status == q.status && Alike(r.m, q.m, a, b, xs, g)
  }

  lemma SameDone(m: State, n: State, a: Stmt, b: Stmt, xs: set<nat>, g: Fields)
    requires Alike(m, n, a, b, xs, g)
    ensures SameResult(Result(m, Done), Result(n, Done), a, b, xs, g)
  {
  }

  lemma SmallChild(s: Stmt, i: nat, a: Stmt, b: Stmt, xs: set<nat>)
    requires Small(s, a, b, xs) && i < |Children(s)|
    ensures Small(Children(s)[i], a, b, xs)
  {
    IdsChild(s, i);
    hide Ids;
  }

  lemma SetAlike(m: State, n: State, a: Stmt, b: Stmt, xs: set<nat>, g: Fields, s: Stmt, f: Fields)
    requires Alike(m, n, a, b, xs, g) && Small(s, a, b, xs) && Twins(a, b, xs)
    ensures Of(m, s.id) == Of(n, s.id) && Alike(Set(m, s.id, f), Set(n, s.id, f), a, b, xs, g)
    ensures Set(m, s.id, f).world == m.world
  {
    hide Size;
    SelfId(s);
  }

  lemma ArmAlike(d: Design, c: Control, m: State, n: State, a: Stmt, b: Stmt, xs: set<nat>, g: Fields)
    requires Alike(m, n, a, b, xs, g)
    ensures Alike(Arm(d, c, m), Arm(d, c, n), a, b, xs, g)
  {
    hide Small;
  }

  lemma WorldAlike(m: State, n: State, a: Stmt, b: Stmt, xs: set<nat>, g: Fields, w: World)
    requires Alike(m, n, a, b, xs, g)
    ensures Alike(m.(world := w), n.(world := w), a, b, xs, g)
  {
    hide Small;
  }

  lemma {:induction false} TriggerAlike(d: Design, s: Stmt, m: State, n: State, a: Stmt, b: Stmt, xs: set<nat>,
      g: Fields)
    requires Twins(a, b, xs) && Alike(m, n, a, b, xs, g) && Small(s, a, b, xs)
    ensures SameResult(Trigger(d, s, m), Trigger(d, s, n), a, b, xs, g)
    decreases m.world.ticks, Size(s), 5
  {
    hide Act, Small, Alike, Twins, Size;
    var f := Of(m, s.id);
    SetAlike(m, n, a, b, xs, g, s, f.(armed := false));
    if s.dec.Free? {
      ActAlike(d, s, m, n, a, b, xs, g);
    } else if f.armed {
      SameWorld(m, n, a, b, xs, g);
      ActAlike(d, s, Set(m, s.id, f.(armed := false)), Set(n, s.id, f.(armed := false)), a, b, xs, g);
    } else {
      SetAlike(m, n, a, b, xs, g, s, f.(armed := true));
      ArmAlike(d, s.dec, Set(m, s.id, f.(armed := true)), Set(n, s.id, f.(armed := true)), a, b, xs, g);
    }
  }

  lemma SameWorld(m: State, n: State, a: Stmt, b: Stmt, xs: set<nat>, g: Fields)
    requires Alike(m, n, a, b, xs, g)
    ensures m.world == n.world && m.wake == n.wake && m.stk != [] && n.stk != [] && |m.stk| == |n.stk|
  {
    hide Small;
  }

  lemma {:induction false} ActAlike(d: Design, s: Stmt, m: State, n: State, a: Stmt, b: Stmt, xs: set<nat>, g: Fields)
    requires Twins(a, b, xs) && Alike(m, n, a, b, xs, g) && Small(s, a, b, xs)
    ensures SameResult(Act(d, s, m), Act(d, s, n), a, b, xs, g)
    decreases m.world.ticks, Size(s), 4
  {
    hide Trigger, Items, LoopStartM, LoopNextM, Small, Alike, Twins, Size, Assignment, Picked, Push;
    SameWorld(m, n, a, b, xs, g);
    match s
    case Null(_, _) =>
    case NonBlocking(_, _, move, store) =>
      WorldAlike(m, n, a, b, xs, g, Program.Post(Read(d, move, m.world), store, m.world));
    case Assign(_, _, _, _) => AssignmentAlike(d, s, m, n, a, b, xs, g);
    case If(_, _, _, _, _) =>
      SmallChild(s, Picked(d, s, m.world.store), a, b, xs);
      TriggerAlike(d, Children(s)[Picked(d, s, m.world.store)], m, n, a, b, xs, g);
    case Case(_, _, _, _, _, _) =>
      SmallChild(s, Picked(d, s, m.world.store), a, b, xs);
      TriggerAlike(d, Children(s)[Picked(d, s, m.world.store)], m, n, a, b, xs, g);
    case Loop(_, _, _, _) =>
      var f := Of(m, s.id);
      SetAlike(m, n, a, b, xs, g, s, f.(looped := false));
      if f.looped {
        LoopNextAlike(d, s, Set(m, s.id, f.(looped := false)), Set(n, s.id, f.(looped := false)), a, b, xs, g);
      } else {
        LoopStartAlike(d, s, m, n, a, b, xs, g);
      }
    case Block(_, _, _) =>
      PushAlike(m, n, a, b, xs, g, s);
      var m1, n1 := Push(s, m), Push(s, n);
      SameWorld(m1, n1, a, b, xs, g);
      if |m1.stk| == 1 {
        TopRoot(m1, n1, a, b, xs, g);
        SmallSize(s, a, b, xs);
      } else {
        TopSame(m1, n1, a, b, xs, g);
        var t := m1.stk[0];
        if t.Block? && Size(t) <= Size(s) {
          SetAlike(m1, n1, a, b, xs, g, t, Of(m1, t.id));
          PushWorld(s, m);
          ItemsAlike(d, t, Of(m1, t.id).cur, m1, n1, a, b, xs, g);
        }
      }
  }

  lemma MoveTicks(d: Design, move: Move, w: World)
    ensures MoveNow(d, move, w).ticks == w.ticks
  {
  }

  lemma PushWorld(s: Stmt, m: State)
    ensures Push(s, m).world == m.world
  {
  }

  lemma SmallSize(s: Stmt, a: Stmt, b: Stmt, xs: set<nat>)
    requires Small(s, a, b, xs)
    ensures Size(s) < Size(a) && Size(s) < Size(b)
  {
    hide Size;
  }

  lemma TopRoot(m: State, n: State, a: Stmt, b: Stmt, xs: set<nat>, g: Fields)
    requires Alike(m, n, a, b, xs, g) && |m.stk| == 1
    ensures m.stk == [a] && n.stk == [b]
  {
    hide Small;
  }

  lemma TopSame(m: State, n: State, a: Stmt, b: Stmt, xs: set<nat>, g: Fields)
    requires Alike(m, n, a, b, xs, g) && |m.stk| > 1
    ensures n.stk != [] && m.stk[0] == n.stk[0] && Small(m.stk[0], a, b, xs)
  {
    hide Small;
  }

  lemma PushAlike(m: State, n: State, a: Stmt, b: Stmt, xs: set<nat>, g: Fields, s: Stmt)
    requires Twins(a, b, xs) && Alike(m, n, a, b, xs, g) && Small(s, a, b, xs)
    ensures Alike(Push(s, m), Push(s, n), a, b, xs, g)
  {
    hide Small;
    var f := Of(m, s.id);
    SetAlike(m, n, a, b, xs, g, s, f.(pushed := true, cur := 0));
    if !f.pushed {
      OntoAlike(Set(m, s.id, f.(pushed := true, cur := 0)), Set(n, s.id, f.(pushed := true, cur := 0)), a, b, xs, g, s);
    }
  }

  lemma OntoAlike(m: State, n: State, a: Stmt, b: Stmt, xs: set<nat>, g: Fields, s: Stmt)
    requires Alike(m, n, a, b, xs, g) && Small(s, a, b, xs)
    ensures Alike(m.(stk := [s] + m.stk), n.(stk := [s] + n.stk), a, b, xs, g)
  {
    hide Small;
    var t := [s] + m.stk;
    assert [s] + n.stk == t[..|t| - 1] + [b];
  }

  lemma PopAlike(m: State, n: State, a: Stmt, b: Stmt, xs: set<nat>, g: Fields)
    requires Alike(m, n, a, b, xs, g) && |m.stk| > 1
    ensures Alike(m.(stk := m.stk[1..]), n.(stk := n.stk[1..]), a, b, xs, g)
  {
    hide Small;
    var t := m.stk[1..];
    assert n.stk[1..] == t[..|t| - 1] + [b];
  }

  lemma AssignmentAlike(d: Design, s: Stmt, m: State, n: State, a: Stmt, b: Stmt, xs: set<nat>, g: Fields)
    requires Twins(a, b, xs) && Alike(m, n, a, b, xs, g) && Small(s, a, b, xs) && s.Assign?
    ensures SameResult(Assignment(d, s, m), Assignment(d, s, n), a, b, xs, g)
  {
    hide Small, Alike, Twins, Read, Commit, MoveNow, Arm, Set, Of;
    SameWorld(m, n, a, b, xs, g);
    var f, w := Of(m, s.id), m.world;
    SetAlike(m, n, a, b, xs, g, s, f);
    if f.pending.Some? {
      var h := f.(pending := None, storing := false);
      SetAlike(m, n, a, b, xs, g, s, h);
      WorldAlike(Set(m, s.id, h), Set(n, s.id, h), a, b, xs, g, Commit(d, f.pending.value, w));
    } else if s.store.Free? {
      WorldAlike(m, n, a, b, xs, g, MoveNow(d, s.move, w));
    } else {
      var h := f.(pending := Some(Read(d, s.move, w)), armed := f.armed || !s.dec.Free?, storing := true);
      SetAlike(m, n, a, b, xs, g, s, h);
      ArmAlike(d, s.store, Set(m, s.id, h), Set(n, s.id, h), a, b, xs, g);
    }
  }

  lemma {:induction false} ItemsAlike(d: Design, t: Stmt, c: nat, m: State, n: State, a: Stmt, b: Stmt, xs: set<nat>,
      g: Fields)
    requires Twins(a, b, xs) && Alike(m, n, a, b, xs, g) && Small(t, a, b, xs)
    requires t.Block? && |m.stk| > 1 && m.stk[0] == t && n.stk != []
    ensures SameResult(Items(d, t, c, m), Items(d, t, c, n), a, b, xs, g)
    decreases m.world.ticks, Size(t), 1, |t.items| - c
  {
    hide Trigger, Small, Alike, Twins, Size;
    SameWorld(m, n, a, b, xs, g);
    if c >= |t.items| {
      var f := Of(m, t.id);
      SetAlike(m, n, a, b, xs, g, t, f.(pushed := false));
      PopAlike(Set(m, t.id, f.(pushed := false)), Set(n, t.id, f.(pushed := false)), a, b, xs, g);
    } else {
      SmallChild(t, c, a, b, xs);
      TriggerAlike(d, Children(t)[c], m, n, a, b, xs, g);
      var r, q := Trigger(d, Children(t)[c], m), Trigger(d, Children(t)[c], n);
      SameWorld(r.m, q.m, a, b, xs, g);
      if |r.m.stk| == 1 {
        TopRoot(r.m, q.m, a, b, xs, g);
        SmallSize(t, a, b, xs);
      } else {
        TopSame(r.m, q.m, a, b, xs, g);
        if r.status.Done? && r.m.stk[0] == t {
          var f := Of(r.m, t.id).(cur := c + 1);
          SetAlike(r.m, q.m, a, b, xs, g, t, f);
          ItemsAlike(d, t, c + 1, Set(r.m, t.id, f), Set(q.m, t.id, f), a, b, xs, g);
        }
      }
    }
  }

  lemma {:induction false} LoopStartAlike(d: Design, s: Stmt, m: State, n: State, a: Stmt, b: Stmt, xs: set<nat>,
      g: Fields)
    requires Twins(a, b, xs) && Alike(m, n, a, b, xs, g) && Small(s, a, b, xs) && s.Loop?
    ensures SameResult(LoopStartM(d, s, m), LoopStartM(d, s, n), a, b, xs, g)
    decreases m.world.ticks, Size(s), 3
  {
    hide LoopGoM, Small, Alike, Twins, Size, MoveNow, Set, Of, SameResult;
    SameWorld(m, n, a, b, xs, g);
    var w := m.world;
    match s.kind
    case Forever => LoopGoAlike(d, s, m, n, a, b, xs, g);
    case Repeat(e) =>
      SetAlike(m, n, a, b, xs, g, s, Of(m, s.id));
      var f := Of(m, s.id).(count := d.times(e, w.store) % TWO32);
      SetAlike(m, n, a, b, xs, g, s, f);
      SameDone(Set(m, s.id, f), Set(n, s.id, f), a, b, xs, g);
      LoopGoAlike(d, s, Set(m, s.id, f), Set(n, s.id, f), a, b, xs, g);
    case While(_) =>
      SameDone(m, n, a, b, xs, g);
      LoopGoAlike(d, s, m, n, a, b, xs, g);
    case For(first, _, _) =>
      MoveTicks(d, first, w);
      WorldAlike(m, n, a, b, xs, g, MoveNow(d, first, w));
      SameDone(m.(world := MoveNow(d, first, w)), n.(world := MoveNow(d, first, w)), a, b, xs, g);
      LoopGoAlike(d, s, m.(world := MoveNow(d, first, w)), n.(world := MoveNow(d, first, w)), a, b, xs, g);
  }

  lemma {:induction false} LoopGoAlike(d: Design, s: Stmt, m: State, n: State, a: Stmt, b: Stmt, xs: set<nat>,
      g: Fields)
    requires Twins(a, b, xs) && Alike(m, n, a, b, xs, g) && Small(s, a, b, xs) && s.Loop?
    ensures SameResult(LoopGoM(d, s, m), LoopGoM(d, s, n), a, b, xs, g)
    decreases m.world.ticks, Size(s), 1
  {
    hide Trigger, LoopNextM, Small, Alike, Twins, Size;
    SameWorld(m, n, a, b, xs, g);
    if m.world.ticks > 0 {
      var w := m.world.(ticks := m.world.ticks - 1);
      WorldAlike(m, n, a, b, xs, g, w);
      SmallChild(s, 0, a, b, xs);
      TriggerAlike(d, Children(s)[0], m.(world := w), n.(world := w), a, b, xs, g);
      var r, q := Trigger(d, Children(s)[0], m.(world := w)), Trigger(d, Children(s)[0], n.(world := w));
      if r.status.Done? {
        LoopNextAlike(d, s, r.m, q.m, a, b, xs, g);
      } else if r.status.Delayed? {
        var f := Of(r.m, s.id);
        SetAlike(r.m, q.m, a, b, xs, g, s, f.(looped := true, armed := f.armed || s.dec.Delay?));
      }
    }
  }

  lemma {:induction false} LoopNextAlike(d: Design, s: Stmt, m: State, n: State, a: Stmt, b: Stmt, xs: set<nat>,
      g: Fields)
    requires Twins(a, b, xs) && Alike(m, n, a, b, xs, g) && Small(s, a, b, xs) && s.Loop?
    ensures SameResult(LoopNextM(d, s, m), LoopNextM(d, s, n), a, b, xs, g)
    decreases m.world.ticks, Size(s), 2
  {
    hide LoopGoM, Small, Alike, Twins, Size, MoveNow, Set, Of, SameResult;
    SameWorld(m, n, a, b, xs, g);
    var w := m.world;
    match s.kind
    case Forever => LoopGoAlike(d, s, m, n, a, b, xs, g);
    case Repeat(_) =>
      var f := Of(m, s.id);
      SetAlike(m, n, a, b, xs, g, s, f);
      var c := (f.count + TWO32 - 1) % TWO32;
      SetAlike(m, n, a, b, xs, g, s, f.(count := c));
      SameDone(Set(m, s.id, f.(count := c)), Set(n, s.id, f.(count := c)), a, b, xs, g);
      LoopGoAlike(d, s, Set(m, s.id, f.(count := c)), Set(n, s.id, f.(count := c)), a, b, xs, g);
    case While(_) =>
      SameDone(m, n, a, b, xs, g);
      LoopGoAlike(d, s, m, n, a, b, xs, g);
    case For(_, _, next) =>
      MoveTicks(d, next, w);
      WorldAlike(m, n, a, b, xs, g, MoveNow(d, next, w));
      SameDone(m.(world := MoveNow(d, next, w)), n.(world := MoveNow(d, next, w)), a, b, xs, g);
      LoopGoAlike(d, s, m.(world := MoveNow(d, next, w)), n.(world := MoveNow(d, next, w)), a, b, xs, g);
  }

  // ----- the outermost blocks -----

  /** `b` is `a` with another statement at position `k`. */
  ghost predicate Swapped(a: Stmt, b: Stmt, k: nat, xs: set<nat>) {
    Twins(a, b, xs) && a.dec.Free? && b.dec.Free? && k < |a.items| && |a.items| == |b.items| &&
    forall i | 0 <= i < |a.items| && i != k :: a.items[i] == b.items[i] && Small(a.items[i], a, b, xs)
  }

  /** Both go on behind the statement at position `k` when a block in it ends. */
  predicate Leaves(a: Stmt, b: Stmt, k: nat) {
    a.Block? && b.Block? && k < |a.items| && k < |b.items| && !a.items[k].Loop? && !b.items[k].Loop?
  }

  /** Both have ended, or both are past entering the statement at position `k`. */
  ghost predicate Going(m: State, n: State, a: Stmt, b: Stmt, k: nat, xs: set<nat>) {
    if m.stk == [] then
      n.stk == [] && m.world == n.world && m.wake == n.wake && forall x | x !in xs :: Of(m, x) == Of(n, x)
    else
      var g := Of(m, a.id);
      Alike(m, n, a, b, xs, g) && g.pushed && (g.cur > k || (g.cur == k && |m.stk| > 1 && Leaves(a, b, k)))
  }

  /** The same, perhaps just back in the outermost block. */
  ghost predicate Near(m: State, n: State, a: Stmt, b: Stmt, k: nat, xs: set<nat>) {
    Going(m, n, a, b, k, xs) ||
    (Alike(m, n, a, b, xs, Of(m, a.id)) && Of(m, a.id).pushed && Of(m, a.id).cur == k && Leaves(a, b, k))
  }

  ghost predicate BothGoing(r: Result, q: Result, a: Stmt, b: Stmt, k: nat, xs: set<nat>) {
    r.status == q.status && Going(r.m, q.m, a, b, k, xs)
  }

  lemma {:induction false} RootItems(d: Design, a: Stmt, b: Stmt, k: nat, xs: set<nat>, c: nat, m: State, n: State)
    requires Swapped(a, b, k, xs) && Alike(m, n, a, b, xs, Of(m, a.id)) && |m.stk| == 1 && n.stk != []
    requires Of(m, a.id).pushed && Of(m, a.id).cur == c > k
    ensures BothGoing(Items(d, a, c, m), Items(d, b, c, n), a, b, k, xs)
    decreases |a.items| - c
  {
    hide Trigger, Small, Size;
    var g := Of(m, a.id);
    TopRoot(m, n, a, b, xs, g);
    if c < |a.items| {
      var s := a.items[c];
      assert Children(a)[c] == s && Children(b)[c] == s;
      TriggerAlike(d, s, m, n, a, b, xs, g);
      var r, q := Trigger(d, s, m), Trigger(d, s, n);
      if r.status.Done? { RootNext(d, a, b, k, xs, c, r.m, q.m); }
    }
  }

  lemma {:induction false} RootNext(d: Design, a: Stmt, b: Stmt, k: nat, xs: set<nat>, c: nat, m: State, n: State)
    requires Swapped(a, b, k, xs) && Alike(m, n, a, b, xs, Of(m, a.id)) && k < c < |a.items|
    requires Of(m, a.id).pushed && Of(m, a.id).cur == c
    ensures m.stk != [] && n.stk != [] && (m.stk[0] == a <==> n.stk[0] == b)
    ensures m.stk[0] == a ==>
      BothGoing(Items(d, a, c + 1, Set(m, a.id, Of(m, a.id).(cur := c + 1))),
                Items(d, b, c + 1, Set(n, b.id, Of(n, b.id).(cur := c + 1))), a, b, k, xs)
    decreases |a.items| - c, 0
  {
    hide Small, Size, Items;
    var g := Of(m, a.id);
    if |m.stk| == 1 {
      TopRoot(m, n, a, b, xs, g);
      var h := g.(cur := c + 1);
      RootSet(m, n, a, b, xs, g, h);
      RootItems(d, a, b, k, xs, c + 1, Set(m, a.id, h), Set(n, b.id, h));
    } else {
      TopSame(m, n, a, b, xs, g);
      SmallSize(m.stk[0], a, b, xs);
    }
  }

  lemma RootSet(m: State, n: State, a: Stmt, b: Stmt, xs: set<nat>, g: Fields, h: Fields)
    requires Twins(a, b, xs) && Alike(m, n, a, b, xs, g)
    ensures Alike(Set(m, a.id, h), Set(n, b.id, h), a, b, xs, h)
  {
    hide Small;
  }

  // ----- a restart of both -----

  lemma PostProcAlike(a: Stmt, b: Stmt, k: nat, xs: set<nat>, m: State, n: State)
    requires Swapped(a, b, k, xs) && Near(m, n, a, b, k, xs)
    ensures Going(PostProc(m), PostProc(n), a, b, k, xs)
  {
    hide Size;
    if m.stk != [] {
      var g := Of(m, a.id);
      if |m.stk| == 1 {
        TopRoot(m, n, a, b, xs, g);
        if g.cur < |a.items| && g.cur != k {
          SelfId(a.items[g.cur]);
          assert Of(m, a.items[g.cur].id) == Of(n, a.items[g.cur].id);
        }
      } else {
        TopSame(m, n, a, b, xs, g);
        TopPostProc(a, b, k, xs, m, n);
      }
    }
  }

  lemma WakeAlike(m: State, n: State, a: Stmt, b: Stmt, xs: set<nat>, g: Fields, wake: seq<Wakeup>)
    requires Alike(m, n, a, b, xs, g)
    ensures Alike(m.(wake := wake), n.(wake := wake), a, b, xs, g)
  {
    hide Small;
  }

  lemma StaysAlike(m: State, n: State, a: Stmt, b: Stmt, xs: set<nat>, g: Fields, t: Stmt, i: nat)
    requires Alike(m, n, a, b, xs, g) && Small(t, a, b, xs) && i < |Children(t)|
    ensures Of(m, Children(t)[i].id) == Of(n, Children(t)[i].id)
  {
    SmallChild(t, i, a, b, xs);
    SelfId(Children(t)[i]);
    hide Size;
  }

  lemma TopPostProc(a: Stmt, b: Stmt, k: nat, xs: set<nat>, m: State, n: State)
    requires Twins(a, b, xs) && Going(m, n, a, b, k, xs) && |m.stk| > 1
    requires n.stk != [] && m.stk[0] == n.stk[0] && Small(m.stk[0], a, b, xs)
    ensures Going(PostProc(m), PostProc(n), a, b, k, xs)
  {
    hide Size, Small, Twins;
    DeepPostProc(a, b, xs, m, n, Of(m, a.id));
    PostProcStack(m);
    PostProcStack(n);
  }

  lemma PostProcStack(m: State)
    ensures PostProc(m).stk == m.stk
  {
  }

  lemma PushedRoot(d: Design, a: Stmt, m: State)
    requires a.Block? && a.dec.Free? && Of(m, a.id).pushed && m.stk != []
    ensures Trigger(d, a, m) ==
            if !m.stk[0].Block? || Size(m.stk[0]) > Size(a) then Result(m, Stuck)
            else Items(d, m.stk[0], Of(m, m.stk[0].id).cur, m)
  {
    hide Items;
  }

  lemma RootAlike(d: Design, a: Stmt, b: Stmt, k: nat, xs: set<nat>, m: State, n: State)
    requires Swapped(a, b, k, xs) && Going(m, n, a, b, k, xs) && m.stk != []
    ensures var r, q := Trigger(d, a, m), Trigger(d, b, n);
      r.status == q.status && Near(r.m, q.m, a, b, k, xs) && (!Going(r.m, q.m, a, b, k, xs) ==> |m.stk| > 1)
  {
    hide Trigger, Items, Small, Size;
    var g := Of(m, a.id);
    SameWorld(m, n, a, b, xs, g);
    PushedRoot(d, a, m);
    PushedRoot(d, b, n);
    if |m.stk| == 1 {
      TopRoot(m, n, a, b, xs, g);
      RootItems(d, a, b, k, xs, g.cur, m, n);
    } else {
      TopSame(m, n, a, b, xs, g);
      var t := m.stk[0];
      SmallSize(t, a, b, xs);
      if t.Block? {
        SetAlike(m, n, a, b, xs, g, t, Of(m, t.id));
        ItemsAlike(d, t, Of(m, t.id).cur, m, n, a, b, xs, g);
      }
    }
  }

  lemma DeliverAlike(d: Design, a: Stmt, b: Stmt, k: nat, xs: set<nat>, m: State, n: State)
    requires Going(m, n, a, b, k, xs) && m.stk != [] && m.wake != []
    ensures n.wake != []
    ensures var r, q := Deliver(d, m), Deliver(d, n);
      r.status == q.status && r.m.stk == m.stk && Going(r.m, q.m, a, b, k, xs)
  {
    hide Small;
  }

  lemma StepAlike(d: Design, a: Stmt, b: Stmt, k: nat, xs: set<nat>, m: State, n: State)
    requires Swapped(a, b, k, xs) && Going(m, n, a, b, k, xs) && m.stk != [] && m.wake != []
    ensures n.wake != []
    ensures var r, q := Step(d, a, m), Step(d, b, n);
      r.status == q.status && Near(r.m, q.m, a, b, k, xs) &&
      (r.status.Done? || (r.status.Delayed? && |m.stk| <= |r.m.stk|) ==> Going(r.m, q.m, a, b, k, xs))
  {
    hide Trigger, Deliver, Swapped, PostProc, Alike;
    DeliverAlike(d, a, b, k, xs, m, n);
    var v, u := Deliver(d, m), Deliver(d, n);
    if v.status.Done? {
      RootAlike(d, a, b, k, xs, v.m, u.m);
      if Trigger(d, a, v.m).status.Done? { PostProcAlike(a, b, k, xs, Trigger(d, a, v.m).m, Trigger(d, b, u.m).m); }
    }
  }

  // ----- inside a block of the statement -----

  /** As long as both are suspended in a block above the outermost one, a trigger
      does the same to both, whatever the outermost blocks are. */
  lemma DeepAlike(d: Design, a: Stmt, b: Stmt, xs: set<nat>, m: State, n: State, g: Fields)
    requires Twins(a, b, xs) && a.dec.Free? && b.dec.Free? && Alike(m, n, a, b, xs, g) && g.pushed && |m.stk| > 1
    ensures SameResult(Trigger(d, a, m), Trigger(d, b, n), a, b, xs, g)
  {
    hide Trigger, Items, Small, Size;
    SameWorld(m, n, a, b, xs, g);
    PushedRoot(d, a, m);
    PushedRoot(d, b, n);
    TopSame(m, n, a, b, xs, g);
    var t := m.stk[0];
    SmallSize(t, a, b, xs);
    if t.Block? {
      SetAlike(m, n, a, b, xs, g, t, Of(m, t.id));
      ItemsAlike(d, t, Of(m, t.id).cur, m, n, a, b, xs, g);
    }
  }

  /** The enclosing block stays at a loop that waits to continue. */
  predicate Stays(m: State, t: Stmt) {
    var c := Of(m, t.id).cur;
    t.Block? && c < |t.items| && t.items[c].Loop? && Of(m, t.items[c].id).looped
  }

  lemma PostProcIs(m: State)
    requires m.stk != []
    ensures var t := m.stk[0];
      var f := Of(m, t.id);
      PostProc(m) == (if Stays(m, t) then m else Set(m, t.id, f.(cur := f.cur + 1)))
        .(wake := m.wake + [Requeue(m.world.now)])
  {
  }

  lemma DeepPostProc(a: Stmt, b: Stmt, xs: set<nat>, m: State, n: State, g: Fields)
    requires Twins(a, b, xs) && Alike(m, n, a, b, xs, g) && |m.stk| > 1
    ensures Alike(PostProc(m), PostProc(n), a, b, xs, g)
  {
    hide Size, Small, Twins, Alike, PostProc, Set, Of;
    SameWorld(m, n, a, b, xs, g);
    TopSame(m, n, a, b, xs, g);
    PostProcIs(m);
    PostProcIs(n);
    var t := m.stk[0];
    var f := Of(m, t.id);
    SetAlike(m, n, a, b, xs, g, t, f);
    SetAlike(m, n, a, b, xs, g, t, f.(cur := f.cur + 1));
    if t.Block? && f.cur < |t.items| { StaysAlike(m, n, a, b, xs, g, t, f.cur); }
    var w := m.wake + [Requeue(m.world.now)];
    WakeAlike(m, n, a, b, xs, g, w);
    WakeAlike(Set(m, t.id, f.(cur := f.cur + 1)), Set(n, t.id, f.(cur := f.cur + 1)), a, b, xs, g, w);
  }
}
