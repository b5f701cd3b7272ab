/** A delayed store directly under an if or a case: the restart that should
    commit it evaluates the conditions again. */
module BranchedStores {
  import opened Wrappers
  import opened Program
  import opened Machine
  import opened Shape
  import opened Refinement
  import opened Restarts
  import opened Branches

  /** The statement at position `k` leads to the delayed assignment `s`. */
  ghost predicate Delays(d: Design, a: Stmt, k: nat, m: State, s: Stmt) {
    Around(d, a, k) && At(m, a, k, {}) && s == Leaf(d, a.items[k], m.world.store) && s != a.items[k] &&
    s.Assign? && s.dec.Free? && !s.store.Free?
  }

  /** The process waits for the store of `s`, whose operands are `c`. */
  ghost predicate Storing(n: State, a: Stmt, k: nat, s: Stmt, c: Capture) {
    a.Block? && s.Assign? && k < |a.items| && n.stk == [a] && At(n.(wake := []), a, k, {s.id}) &&
    Of(n, s.id).pending == Some(c) && !Of(n, s.id).armed
  }

  lemma StoreArmed(d: Design, a: Stmt, k: nat, m: State, s: Stmt)
    requires Delays(d, a, k, m, s)
    ensures var r := Items(d, a, k, m);
      r.status.Delayed? && Storing(r.m, a, k, s, Read(d, s.move, m.world)) && r.m.world == m.world &&
      |r.m.wake| == 1 && !r.m.wake[0].Requeue? && r.m.wake[0].at == m.world.now + Span(d, s.store, m.world)
    ensures Run(d, a.items[k], m.world) == Run(d, s, m.world)
  {
    hide Ids, Item, Unique, Run, Size, Leaf, Read, Span;
    AroundId(d, a, k);
    LeafRuns(d, a.items[k], m);
    LeafInside(d, a.items[k], m.world.store);
    SelfId(s);
    assert Trigger(d, s, m) == Assignment(d, s, m);
    hide Trigger;
    assert Children(a)[k] == a.items[k];
    var r := Assignment(d, s, m);
    assert At(r.m.(wake := []), a, k, {s.id});
  }

  /** The restart: either the step bound, or another trigger of the statement
      at position `k` in the world that the plain semantics has after the wait. */
  lemma StoreRestarts(d: Design, a: Stmt, k: nat, n: State, s: Stmt, c: Capture, w: World, o: Outcome)
    requires Storing(n, a, k, s, c) && a.dec.Free? && n.world == w
    requires |n.wake| == 1 && !n.wake[0].Requeue? && n.wake[0].at == w.now + Span(d, s.store, w)
    ensures var v := Wait(d, s.store, w);
      if v.Cut? then RunEnds(d, a, n, v)
      else
        var u := n.(wake := [], world := v.w);
        At(u, a, k, {s.id}) && Of(u, s.id).pending == Some(c) &&
        (RunEnds(d, a, n, o) <==> EndsWith(d, a, GoOn(d, a, k, Trigger(d, a.items[k], u)), o))
  {
    hide RunEnds, EndsWith, Trigger, Ids, Items;
    WaitRestarts(d, a, k, n, s.store, {s.id}, o);
  }

  /** The same branch again: the captured operands are committed. */
  lemma SameBranch(d: Design, a: Stmt, k: nat, u: State, s: Stmt, c: Capture)
    requires Around(d, a, k) && !d.atomic && At(u, a, k, {s.id}) && s == Leaf(d, a.items[k], u.world.store)
    requires s != a.items[k] && s.Assign? && s.dec.Free? && Of(u, s.id).pending == Some(c)
    ensures EndsWith(d, a, GoOn(d, a, k, Trigger(d, a.items[k], u)),
      Rejoined(d, a, k, Fin(Commit(d, c, u.world), true)))
  {
    hide Ids, Item, Unique, Run, Size, Leaf, Commit, EndsWith, RunFrom, GoOn;
    AroundId(d, a, k);
    LeafRuns(d, a.items[k], u);
    LeafInside(d, a.items[k], u.world.store);
    SelfId(s);
    var r := Assignment(d, s, u);
    assert Trigger(d, s, u) == r;
    hide Trigger;
    Passes(d, a, k, {s.id}, u, r);
  }

  /** Another statement `t` instead, of the fragment. */
  lemma OtherBranch(d: Design, a: Stmt, k: nat, u: State, s: Stmt, t: Stmt)
    requires Around(d, a, k) && !d.atomic && At(u, a, k, {s.id}) && t == Leaf(d, a.items[k], u.world.store)
    requires s.id in Kids(a.items[k]) && s.id !in Ids(t) && Item(d, t) && Branching(a.items[k])
    ensures var r := Trigger(d, t, u);
      var o := Run(d, t, u.world);
      Trigger(d, a.items[k], u) == r &&
      (r.status.Delayed? ==> (o.Fin? ==> o.paused) && Asked(u, r.m)) &&
      (!r.status.Delayed? ==> (o.Fin? ==> !o.paused)) &&
      (!r.status.Delayed? || Sheltered(t) ==> EndsWith(d, a, GoOn(d, a, k, r), Rejoined(d, a, k, o)))
  {
    hide Ids, Item, Unique, Run, Size, Leaf, Commit, EndsWith, RunFrom, Trigger, Suspended;
    AroundId(d, a, k);
    LeafRuns(d, a.items[k], u);
    LeafInside(d, a.items[k], u.world.store);
    SelfId(t);
    IdleRuns(d, u, t, u.world);
    TriggerOk(d, t, u);
    var r := Trigger(d, t, u);
    match r.status
    case Done => Passes(d, a, k, {s.id}, u, r);
    case Delayed =>
      DelayedAsks(d, t, u, r, Run(d, t, u.world));
      if Sheltered(t) { Enters(d, a, k, t, {s.id}, u, r); }
    case Bound => BoundEnds(d, a, k, r);
    case _ =>
  }

  lemma DelayedAsks(d: Design, t: Stmt, u: State, r: Result, o: Outcome)
    requires r.status.Delayed? && Refinement.Post(d, t, u, r, o)
    ensures Asked(u, r.m) && (o.Fin? ==> o.paused) && (Sheltered(t) ==> Enterable(t))
  {
    hide Still, Ids, Later, Hung;
  }

  // ----- the result -----

  /** How the two ends compare, if the statement is the last of the process. */
  lemma OtherAgrees(d: Design, a: Stmt, k: nat, u: State, s: Stmt, t: Stmt, c: Capture)
    requires Around(d, a, k) && !d.atomic && At(u, a, k, {s.id}) && t == Leaf(d, a.items[k], u.world.store)
    requires s.id in Kids(a.items[k]) && s.id !in Ids(t) && Item(d, t) && Branching(a.items[k]) && k == |a.items| - 1
    ensures EndsWith(d, a, GoOn(d, a, k, Trigger(d, a.items[k], u)), Fin(Commit(d, c, u.world), true)) <==>
            Run(d, t, u.world) == Fin(Commit(d, c, u.world), false)
  {
    hide Ids, Item, Unique, Run, Size, Leaf, Commit, EndsWith, RunFrom, Trigger, Around, Sheltered, GoOn, Rejoined;
    AroundBlock(d, a, k);
    OtherBranch(d, a, k, u, s, t);
    var r := GoOn(d, a, k, Trigger(d, t, u));
    var p := Fin(Commit(d, c, u.world), true);
    var o := Run(d, t, u.world);
    LastJoined(d, a, o);
    if Trigger(d, t, u).status.Delayed? {
      CommitTicks(d, c, u.world);
      if EndsWith(d, a, r, p) { NeverEnds(d, a, k, u, Trigger(d, t, u), p); }
    } else {
      SameEnd(d, a, r, Rejoined(d, a, k, o), p);
    }
  }

  lemma CommitTicks(d: Design, c: Capture, w: World)
    ensures Commit(d, c, w).ticks == w.ticks
  {
  }

  lemma NeverEnds(d: Design, a: Stmt, k: nat, u: State, r: Result, o: Outcome)
    requires a.Block? && r.status.Delayed? && Asked(u, r.m) && u.wake == [] && o.Fin? && o.w.ticks == u.world.ticks
    requires r.m.world.ticks <= u.world.ticks
    ensures !EndsWith(d, a, GoOn(d, a, k, r), o)
  {
    hide Items, Restarted;
    if EndsWith(d, a, GoOn(d, a, k, r), o) {
      assert RunEnds(d, a, r.m, o);
      WaitCosts(d, a, r.m, o);
    }
  }

  lemma DelaysIn(d: Design, a: Stmt, k: nat, m: State, s: Stmt, v: Store)
    requires Delays(d, a, k, m, s)
    ensures a.Block? && k < |a.items| && a.dec.Free? && m.stk != [] && Around(d, a, k)
    ensures s.Assign? && s.dec.Free? && !s.store.Free? && s != a.items[k] && Branching(a.items[k])
    ensures s.id in Kids(a.items[k]) && var t := Leaf(d, a.items[k], v);
      t != a.items[k] && (t == s || s.id !in Ids(t))
  {
    AroundId(d, a, k);
    LeafInside(d, a.items[k], m.world.store);
    LeavesApart(d, a.items[k], m.world.store, v);
    SelfId(s);
    hide Ids, Item, Unique, Size;
  }

  lemma PlainStore(d: Design, a: Stmt, k: nat, s: Stmt, w: World)
    requires a.Block? && k < |a.items| && s.Assign? && s.dec.Free? && !s.store.Free? &&
      Run(d, a.items[k], w) == Run(d, s, w)
    ensures var v := Wait(d, s.store, w);
      RunFrom(d, a, k, w) == if v.Cut? then v else Rejoined(d, a, k, Fin(Commit(d, Read(d, s.move, w), v.w), true))
  {
  }

  /** A delayed store under an if or a case. At the restart the store found
      there leads to a statement `t`. If that is the assignment itself, the
      captured operands are committed and restarts agree with the plain
      semantics. If not, the capture is dropped and `t` runs instead. */
  lemma StoreTakesBranch(d: Design, a: Stmt, k: nat, m: State, s: Stmt)
    requires Delays(d, a, k, m, s) && !d.atomic
    ensures var v := Wait(d, s.store, m.world);
      var t := Leaf(d, a.items[k], v.w.store);
      (v.Cut? || t == s ==> EndsWith(d, a, Items(d, a, k, m), RunFrom(d, a, k, m.world))) &&
      (v.Fin? && t != s && Item(d, t) && Sheltered(t) ==>
         EndsWith(d, a, Items(d, a, k, m), Rejoined(d, a, k, Run(d, t, v.w))))
  {
    hide Item, Run, Leaf, Commit, EndsWith, RunFrom, Trigger, Around, Sheltered, GoOn, Rejoined, Items, Wait, Delays,
      Storing, RunEnds, At, Ids;
    DelaysIn(d, a, k, m, s, m.world.store);
    var w := m.world;
    var v := Wait(d, s.store, w);
    var c := Read(d, s.move, w);
    var r := Items(d, a, k, m);
    DelaysIn(d, a, k, m, s, v.w.store);
    var t := Leaf(d, a.items[k], v.w.store);
    StoreArmed(d, a, k, m, s);
    PlainStore(d, a, k, s, w);
    DelayedEnds(d, a, r, RunFrom(d, a, k, w));
    DelayedEnds(d, a, r, Rejoined(d, a, k, Run(d, t, v.w)));
    StoreRestarts(d, a, k, r.m, s, c, w, RunFrom(d, a, k, w));
    if v.Fin? {
      var u := r.m.(wake := [], world := v.w);
      if t == s {
        SameBranch(d, a, k, u, s, c);
      } else if Item(d, t) && Sheltered(t) {
        StoreRestarts(d, a, k, r.m, s, c, w, Rejoined(d, a, k, Run(d, t, v.w)));
        OtherBranch(d, a, k, u, s, t);
      }
    }
  }

  /** If nothing follows, restarts agree with the plain semantics exactly if the
      restart leads to the assignment again, or what it leads to ends at once in
      just the world that the commit would give. */
  lemma StoreAgrees(d: Design, a: Stmt, k: nat, m: State, s: Stmt)
    requires Delays(d, a, k, m, s) && !d.atomic && k == |a.items| - 1 && Wait(d, s.store, m.world).Fin?
    requires var t := Leaf(d, a.items[k], Wait(d, s.store, m.world).w.store); t == s || Item(d, t)
    ensures var v := Wait(d, s.store, m.world).w;
      var t := Leaf(d, a.items[k], v.store);
      var c := Read(d, s.move, m.world);
      (EndsWith(d, a, Items(d, a, k, m), RunFrom(d, a, k, m.world)) <==>
         t == s || Run(d, t, v) == Fin(Commit(d, c, v), false)) &&
      (t.Null? && t.dec.Free? ==> (Run(d, t, v) == Fin(Commit(d, c, v), false) <==> c.value.tristate))
  {
    hide Item, Run, Leaf, Commit, EndsWith, RunFrom, Trigger, Around, Sheltered, GoOn, Rejoined, Items, Wait, Delays,
      Storing, RunEnds, At, Ids;
    DelaysIn(d, a, k, m, s, m.world.store);
    var w := m.world;
    var v := Wait(d, s.store, w);
    var c := Read(d, s.move, w);
    var r := Items(d, a, k, m);
    DelaysIn(d, a, k, m, s, v.w.store);
    var t := Leaf(d, a.items[k], v.w.store);
    StoreTakesBranch(d, a, k, m, s);
    NothingElse(d, t, c, v.w);
    if t != s {
      StoreArmed(d, a, k, m, s);
      PlainStore(d, a, k, s, w);
      LastJoined(d, a, Fin(Commit(d, c, v.w), true));
      DelayedEnds(d, a, r, RunFrom(d, a, k, w));
      StoreRestarts(d, a, k, r.m, s, c, w, RunFrom(d, a, k, w));
      OtherAgrees(d, a, k, r.m.(wake := [], world := v.w), s, t, c);
    }
  }

  lemma NothingElse(d: Design, t: Stmt, c: Capture, w: World)
    ensures t.Null? && t.dec.Free? ==> (Run(d, t, w) == Fin(Commit(d, c, w), false) <==> c.value.tristate)
  {
    if !c.value.tristate { assert |Commit(d, c, w).log| == |w.log| + 1; }
  }

  /** The same for a whole process that consists of the if or case. */
  lemma StoreUnderBranch(d: Design, a: Stmt, w: World, s: Stmt)
    requires Around(d, a, 0) && |a.items| == 1 && !d.atomic && s != a.items[0]
    requires s == Leaf(d, a.items[0], Woken(d, w).store) && s.Assign? && s.dec.Free? && !s.store.Free?
    requires Wait(d, s.store, Woken(d, w)).Fin?
    requires var t := Leaf(d, a.items[0], Wait(d, s.store, Woken(d, w)).w.store); t == s || Item(d, t)
    ensures var u := Woken(d, w);
      var v := Wait(d, s.store, u).w;
      var t := Leaf(d, a.items[0], v.store);
      RunEnds(d, a, Start(w), RunProcess(d, a, u)) <==>
        t == s || Run(d, t, v) == Fin(Commit(d, Read(d, s.move, u), v), false)
  {
    hide Item, Unique, Run, Leaf, Commit, EndsWith, RunFrom, Items, Wait, RunEnds, At, Ids;
    var u := Woken(d, w);
    FromStart(d, a, w, RunProcess(d, a, u));
    StoreAgrees(d, a, 0, Push(a, Fresh(u)), s);
  }
}
