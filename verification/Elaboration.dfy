/** What setup does to statements before a run, and runs of processes that
    nothing else disturbs. */
module Elaboration {
  import opened Program
  import opened Shape
  import opened Refinement
  import opened Restarts

  // ----- a process by itself -----

  /** No other process touches the store, and waits do not depend on the number
      of restarts. */
  ghost predicate Isolated(d: Design) {
    (forall w: World :: d.disturb(w) == w.store) &&
    (forall x: nat, w: World, n: nat :: d.arrival(x, w.(wakes := n)) == d.arrival(x, w))
  }

  /** The same world, up to the number of restarts. */
  ghost predicate Same(w: World, v: World) { w == v.(wakes := w.wakes) }

  ghost predicate Sim(o: Outcome, p: Outcome) {
    (o.Cut? <==> p.Cut?) && Same(o.w, p.w) && (o.Fin? ==> o.paused == p.paused)
  }

  function Atomic(d: Design): Design { d.(atomic := true) }

  lemma {:induction false} RunSim(d: Design, s: Stmt, w: World, v: World)
    requires Isolated(d) && Same(w, v)
    ensures Sim(Run(d, s, w), Run(Atomic(d), s, v))
    decreases w.ticks, Size(s), 5
  {
    hide Body;
    if s.dec.Free? {
      BodySim(d, s, w, v);
    } else {
      WaitSim(d, s.dec, w, v);
      var o, p := Wait(d, s.dec, w), Wait(Atomic(d), s.dec, v);
      if o.Fin? { BodySim(d, s, o.w, p.w); }
    }
  }

  lemma WaitSim(d: Design, c: Control, w: World, v: World)
    requires Isolated(d) && Same(w, v)
    ensures Sim(Wait(d, c, w), Wait(Atomic(d), c, v))
  {
    assert w == v.(wakes := w.wakes);
    assert Span(d, c, w) == Span(d, c, v);
  }

  lemma YieldSim(d: Design, o: Outcome, p: Outcome)
    requires Isolated(d) && Sim(o, p)
    ensures Sim(Yield(d, o), Yield(Atomic(d), p))
  {
  }

  lemma {:induction false} BodySim(d: Design, s: Stmt, w: World, v: World)
    requires Isolated(d) && Same(w, v)
    ensures Sim(Body(d, s, w), Body(Atomic(d), s, v))
    decreases w.ticks, Size(s), 4
  {
    hide Run, RunFrom, LoopStart, Wait, Yield, Picked;
    match s
    case Assign(_, _, _, store) => if !store.Free? { WaitSim(d, store, w, v); }
    case If(_, _, _, _, _) => PickedSame(d, s, w); RunSim(d, Children(s)[Picked(d, s, w.store)], w, v);
    case Case(_, _, _, _, _, _) => PickedSame(d, s, w); RunSim(d, Children(s)[Picked(d, s, w.store)], w, v);
    case Loop(_, _, _, _) => LoopStartSim(d, s, w, v);
    case Block(_, _, _) =>
      RunFromSim(d, s, 0, w, v);
      YieldSim(d, RunFrom(d, s, 0, w), RunFrom(Atomic(d), s, 0, v));
    case _ =>
  }

  lemma PickedSame(d: Design, s: Stmt, w: World)
    requires s.If? || s.Case?
    ensures Picked(d, s, w.store) == Picked(Atomic(d), s, w.store)
  {
    if s.Case? { MatchingSame(d, s, w.store, 0); }
  }

  lemma {:induction false} MatchingSame(d: Design, s: Stmt, store: Store, k: nat)
    requires s.Case?
    ensures Matching(d, s, store, k) == Matching(Atomic(d), s, store, k)
    decreases |s.arms| - k
  {
    if k < |s.arms| && k < |s.labels| { MatchingSame(d, s, store, k + 1); }
  }

  lemma {:induction false} RunFromSim(d: Design, b: Stmt, i: nat, w: World, v: World)
    requires Isolated(d) && Same(w, v) && b.Block?
    ensures Sim(RunFrom(d, b, i, w), RunFrom(Atomic(d), b, i, v))
    decreases w.ticks, Size(b), 1, |b.items| - i
  {
    hide Run;
    if i < |b.items| {
      RunSim(d, Children(b)[i], w, v);
      var o, p := Run(d, Children(b)[i], w), Run(Atomic(d), Children(b)[i], v);
      if o.Fin? { RunFromSim(d, b, i + 1, o.w, p.w); }
    }
  }

  lemma {:induction false} LoopStartSim(d: Design, s: Stmt, w: World, v: World)
    requires Isolated(d) && Same(w, v) && s.Loop?
    ensures Sim(LoopStart(d, s, w), LoopStart(Atomic(d), s, v))
    decreases w.ticks, Size(s), 3
  {
    hide LoopGo;
    match s.kind
    case Forever => LoopGoSim(d, s, 0, w, v);
    case Repeat(e) => LoopGoSim(d, s, d.times(e, w.store) % TWO32, w, v);
    case While(_) => LoopGoSim(d, s, 0, w, v);
    case For(first, _, _) => LoopGoSim(d, s, 0, MoveNow(d, first, w), MoveNow(d, first, v));
  }

  lemma {:induction false} LoopGoSim(d: Design, s: Stmt, n: nat, w: World, v: World)
    requires Isolated(d) && Same(w, v) && s.Loop?
    ensures Sim(LoopGo(d, s, n, w), LoopGo(Atomic(d), s, n, v))
    decreases w.ticks, Size(s), 1
  {
    hide Run, LoopNext;
    if w.ticks > 0 {
      var w1, v1 := w.(ticks := w.ticks - 1), v.(ticks := v.ticks - 1);
      RunSim(d, Children(s)[0], w1, v1);
      var o, p := Run(d, Children(s)[0], w1), Run(Atomic(d), Children(s)[0], v1);
      if o.Fin? { LoopNextSim(d, s, n, o.w, p.w); }
    }
  }

  lemma {:induction false} LoopNextSim(d: Design, s: Stmt, n: nat, w: World, v: World)
    requires Isolated(d) && Same(w, v) && s.Loop?
    ensures Sim(LoopNext(d, s, n, w), LoopNext(Atomic(d), s, n, v))
    decreases w.ticks, Size(s), 2
  {
    hide LoopGo;
    match s.kind
    case Forever => LoopGoSim(d, s, 0, w, v);
    case Repeat(_) => if n > 1 { LoopGoSim(d, s, n - 1, w, v); }
    case While(_) => LoopGoSim(d, s, 0, w, v);
    case For(_, _, next) => LoopGoSim(d, s, 0, MoveNow(d, next, w), MoveNow(d, next, v));
  }

  // ----- setup -----

  /** Setup puts a begin/end block around a delayed statement that is a branch
      of an if or the body of a loop, unless it is a block already. Identities
      of the original statements are doubled to make room for the new ones. */
  function Wrapped(s: Stmt, t: Stmt): Stmt {
    if s.dec.Free? || s.Block? then t else Block(2 * s.id + 1, Free, [t])
  }

  function Setup(s: Stmt): Stmt
    decreases s
  {
    var id := 2 * s.id;
    match s
    case If(_, dec, test, yes, no) => If(id, dec, test, Wrapped(yes, Setup(yes)), Wrapped(no, Setup(no)))
    case Case(_, dec, expr, labels, arms, other) =>
      Case(id, dec, expr, labels, SetupAll(s, arms, 0), Setup(other))
    case Loop(_, dec, kind, body) => Loop(id, dec, kind, Wrapped(body, Setup(body)))
    case Block(_, dec, items) => Block(id, dec, SetupAll(s, items, 0))
    case Null(_, dec) => Null(id, dec)
    case Assign(_, dec, move, store) => Assign(id, dec, move, store)
    case NonBlocking(_, dec, move, store) => NonBlocking(id, dec, move, store)
  }

  function SetupAll(s: Stmt, cs: seq<Stmt>, k: nat): (r: seq<Stmt>)
    requires k <= |cs| && forall i | 0 <= i < |cs| :: cs[i] < s
    ensures |r| == |cs| - k && forall i | 0 <= i < |r| :: r[i] == Setup(cs[k + i])
    decreases s, |cs| - k
  {
    if k == |cs| then [] else [Setup(cs[k])] + SetupAll(s, cs, k + 1)
  }

  /** An initial statement that is no block becomes the only item of one. */
  function SetupProcess(s: Stmt): Stmt {
    if s.Block? then Setup(s) else Block(2 * s.id + 1, Free, [Setup(s)])
  }

  /** A child of `s` after setup. */
  function SetupChild(s: Stmt, c: Stmt): Stmt {
    if s.If? || s.Loop? then Wrapped(c, Setup(c)) else Setup(c)
  }

  lemma SetupChildren(s: Stmt)
    ensures |Children(Setup(s))| == |Children(s)|
    ensures forall i | 0 <= i < |Children(s)| :: Children(Setup(s))[i] == SetupChild(s, Children(s)[i])
  {
  }

  /** Of the statements inside another one, setup wraps exactly the branches of an
      if and the bodies of loops that have a control and are not blocks. */
  lemma WrapsExactly(s: Stmt, i: nat)
    requires i < |Children(s)|
    ensures |Children(Setup(s))| == |Children(s)|
    ensures var c, t := Children(s)[i], Children(Setup(s))[i];
      if (s.If? || s.Loop?) && !c.dec.Free? && !c.Block? then t.Block? && t.dec.Free? && t.items == [Setup(c)]
      else t == Setup(c)
    ensures Setup(s).dec == s.dec
  {
    SetupChildren(s);
    hide Setup;
    assert Setup(s).dec == s.dec by { SetupDec(s); }
  }

  /** Identities are not part of the plain semantics, and the block put around a
      statement changes nothing when there is no preemption. */
  lemma WrappedRun(e: Design, s: Stmt, w: World)
    requires e.atomic
    ensures Run(e, Wrapped(s, Setup(s)), w) == Run(e, Setup(s), w)
  {
    hide Setup;
    if !s.dec.Free? && !s.Block? {
      var b := Block(2 * s.id + 1, Free, [Setup(s)]);
      SingleItem(e, b, w);
    }
  }

  lemma SingleItem(e: Design, b: Stmt, w: World)
    requires e.atomic && b.Block? && b.dec.Free? && |b.items| == 1
    ensures Run(e, b, w) == Run(e, b.items[0], w) && RunProcess(e, b, w) == Run(e, b.items[0], w)
  {
    hide Setup;
    var o := Run(e, b.items[0], w);
    assert Children(b)[0] == b.items[0];
    if o.Fin? { assert RunFrom(e, b, 1, o.w) == Fin(o.w, false); }
    assert RunFrom(e, b, 0, w) == o;
    assert Body(e, b, w) == o;
  }

  lemma {:induction false} SetupRun(e: Design, s: Stmt, w: World)
    requires e.atomic
    ensures Run(e, Setup(s), w) == Run(e, s, w)
    decreases w.ticks, Size(s), 5
  {
    hide Body;
    SetupDec(s);
    if s.dec.Free? {
      SetupBody(e, s, w);
    } else {
      var o := Wait(e, s.dec, w);
      if o.Fin? { SetupBody(e, s, o.w); }
    }
  }

  lemma SetupDec(s: Stmt)
    ensures Setup(s).dec == s.dec
  {
  }

  lemma {:induction false} SetupChildRun(e: Design, s: Stmt, i: nat, w: World, t: nat)
    requires e.atomic && i < |Children(s)| && w.ticks <= t
    ensures Run(e, Children(Setup(s))[i], w) == Run(e, Children(s)[i], w)
    decreases t, Size(s), 0
  {
    hide Run, Setup;
    SetupChildren(s);
    WrappedRun(e, Children(s)[i], w);
    SetupRun(e, Children(s)[i], w);
  }

  lemma {:induction false} SetupBody(e: Design, s: Stmt, w: World)
    requires e.atomic
    ensures Body(e, Setup(s), w) == Body(e, s, w)
    decreases w.ticks, Size(s), 4
  {
    hide Run, RunFrom, LoopStart, Wait, Yield, Picked, SetupAll;
    match s
    case If(_, _, _, _, _) => BranchSetup(e, s, w);
    case Case(_, _, _, _, _, _) => BranchSetup(e, s, w);
    case Loop(_, _, _, _) => LoopStartSetup(e, s, w);
    case Block(_, _, _) => RunFromSetup(e, s, 0, w);
    case _ =>
  }

  lemma {:induction false} BranchSetup(e: Design, s: Stmt, w: World)
    requires e.atomic && (s.If? || s.Case?)
    ensures Body(e, Setup(s), w) == Body(e, s, w)
    decreases w.ticks, Size(s), 3
  {
    hide Run, RunFrom, LoopStart, Picked, SetupAll;
    SetupChildren(s);
    PickedSetup(e, s, w.store);
    SetupChildRun(e, s, Picked(e, s, w.store), w, w.ticks);
  }

  lemma PickedSetup(e: Design, s: Stmt, store: Store)
    requires s.If? || s.Case?
    ensures Setup(s).If? || Setup(s).Case?
    ensures Picked(e, Setup(s), store) == Picked(e, s, store)
  {
    if s.Case? { MatchingSetup(e, s, store, 0); }
  }

  lemma SetupCase(s: Stmt)
    requires s.Case?
    ensures Setup(s).Case? && Setup(s).expr == s.expr && Setup(s).labels == s.labels && |Setup(s).arms| == |s.arms|
  {
  }

  lemma {:induction false} MatchingSetup(e: Design, s: Stmt, store: Store, k: nat)
    requires s.Case?
    ensures Matching(e, Setup(s), store, k) == Matching(e, s, store, k)
    decreases |s.arms| - k
  {
    SetupCase(s);
    hide Setup;
    if k < |s.arms| && k < |s.labels| { MatchingSetup(e, s, store, k + 1); }
  }

  lemma {:induction false} RunFromSetup(e: Design, b: Stmt, i: nat, w: World)
    requires e.atomic && b.Block?
    ensures RunFrom(e, Setup(b), i, w) == RunFrom(e, b, i, w)
    decreases w.ticks, Size(b), 1, |b.items| - i
  {
    hide Run;
    SetupChildren(b);
    if i < |b.items| {
      SetupChildRun(e, b, i, w, w.ticks);
      var o := Run(e, Children(b)[i], w);
      if o.Fin? { RunFromSetup(e, b, i + 1, o.w); }
    }
  }

  lemma {:induction false} LoopStartSetup(e: Design, s: Stmt, w: World)
    requires e.atomic && s.Loop?
    ensures LoopStart(e, Setup(s), w) == LoopStart(e, s, w)
    decreases w.ticks, Size(s), 3
  {
    hide LoopGo, Wrapped;
    match s.kind
    case Forever => LoopGoSetup(e, s, 0, w);
    case Repeat(x) => LoopGoSetup(e, s, e.times(x, w.store) % TWO32, w);
    case While(_) => LoopGoSetup(e, s, 0, w);
    case For(first, _, _) => LoopGoSetup(e, s, 0, MoveNow(e, first, w));
  }

  lemma {:induction false} LoopGoSetup(e: Design, s: Stmt, n: nat, w: World)
    requires e.atomic && s.Loop?
    ensures LoopGo(e, Setup(s), n, w) == LoopGo(e, s, n, w)
    decreases w.ticks, Size(s), 1
  {
    hide Run, LoopNext, Wrapped;
    if w.ticks > 0 {
      var w1 := w.(ticks := w.ticks - 1);
      SetupChildRun(e, s, 0, w1, w.ticks);
      var o := Run(e, Children(s)[0], w1);
      if o.Fin? { LoopNextSetup(e, s, n, o.w); }
    }
  }

  lemma {:induction false} LoopNextSetup(e: Design, s: Stmt, n: nat, w: World)
    requires e.atomic && s.Loop?
    ensures LoopNext(e, Setup(s), n, w) == LoopNext(e, s, n, w)
    decreases w.ticks, Size(s), 2
  {
    hide LoopGo, Wrapped;
    match s.kind
    case Forever => LoopGoSetup(e, s, 0, w);
    case Repeat(_) => if n > 1 { LoopGoSetup(e, s, n - 1, w); }
    case While(_) => LoopGoSetup(e, s, 0, w);
    case For(_, _, next) => LoopGoSetup(e, s, 0, MoveNow(e, next, w));
  }

  // ----- setup establishes the fragment -----

  /** The statements as parsed whose form after setup is in the fragment. */
  ghost predicate Raw(d: Design, s: Stmt)
    decreases s
  {
    var cs := Children(s);
    (forall i | 0 <= i < |cs| :: Raw(d, cs[i]) && (s.Block? || RawSheltered(s, cs[i]) || MayWait(d, s, cs[i]))) &&
    (s.Loop? && s.dec.Event? ==> Still(s.body))
  }

  /** What setup makes of child `c` of `s` waits only inside blocks; delayed
      statements that setup wraps do. */
  predicate RawSheltered(s: Stmt, c: Stmt)
    decreases c
  {
    var cs := Children(c);
    Still(c) || (c.dec.Free? && c.Block?) || (Branching(c) && forall i | 0 <= i < |cs| :: RawSheltered(c, cs[i])) ||
    ((s.If? || s.Loop?) && !c.dec.Free? && !c.Block?)
  }

  lemma {:induction false} StillSetup(s: Stmt)
    requires Still(s)
    ensures Still(Setup(s))
    decreases s
  {
    hide Wrapped;
    SetupChildren(s);
    SetupDec(s);
    forall i | 0 <= i < |Children(s)| ensures Still(Children(Setup(s))[i]) {
      StillSetup(Children(s)[i]);
      StillUnwrapped(Children(s)[i]);
    }
  }

  lemma StillUnwrapped(s: Stmt)
    requires Still(s)
    ensures Wrapped(s, Setup(s)) == Setup(s)
  {
    hide Setup;
  }

  lemma {:induction false} ItemSetup(d: Design, s: Stmt)
    requires Raw(d, s)
    ensures Item(d, Setup(s))
    decreases s
  {
    hide Wrapped, SetupAll, RawSheltered, Still, Sheltered, MayWait;
    SetupChildren(s);
    SameKind(s);
    forall i | 0 <= i < |Children(s)|
      ensures var c := Children(Setup(s))[i]; Item(d, c) && (s.Block? || Sheltered(c) || MayWait(d, Setup(s), c)) {
      ItemSetup(d, Children(s)[i]);
      ChildItem(d, s, Children(s)[i]);
      if RawSheltered(s, Children(s)[i]) { ChildSheltered(s, Children(s)[i]); }
      if MayWait(d, s, Children(s)[i]) { ChildMayWait(d, s, Children(s)[i]); }
    }
    if s.Loop? && s.dec.Event? { StillUnwrapped(s.body); StillSetup(s.body); }
  }

  lemma ChildMayWait(d: Design, s: Stmt, c: Stmt)
    requires MayWait(d, s, c)
    ensures MayWait(d, Setup(s), SetupChild(s, c))
  {
    hide Setup, Calm;
    SameKind(s);
    SetupDec(s);
    SameKind(c);
  }

  lemma ChildItem(d: Design, s: Stmt, c: Stmt)
    requires Item(d, Setup(c))
    ensures Item(d, SetupChild(s, c))
  {
    hide Setup, Still;
    if (s.If? || s.Loop?) && !c.dec.Free? && !c.Block? {
      var b := Block(2 * c.id + 1, Free, [Setup(c)]);
      assert Children(b) == [Setup(c)];
      assert Item(d, b);
    }
  }

  lemma {:induction false} ChildSheltered(s: Stmt, c: Stmt)
    requires RawSheltered(s, c)
    ensures Sheltered(SetupChild(s, c))
    decreases c
  {
    hide Setup, Still;
    SetupDec(c);
    SameKind(c);
    if Still(c) {
      StillSetup(c);
      StillUnwrapped(c);
    } else if Branching(c) {
      SetupChildren(c);
      forall i | 0 <= i < |Children(c)| ensures Sheltered(Children(Setup(c))[i]) { ChildSheltered(c, Children(c)[i]); }
    }
  }

  lemma SameKind(s: Stmt)
    ensures Setup(s).Block? == s.Block? && Setup(s).If? == s.If? && Setup(s).Case? == s.Case? &&
      Setup(s).Loop? == s.Loop?
  {
  }

  lemma {:induction false} SetupIds(s: Stmt, x: nat)
    requires Unique(s) && x in Ids(Setup(s))
    ensures x / 2 in Ids(s) && x != 2 * s.id + 1
    decreases s, 1
  {
    hide Setup, Unique;
    SetupId(s);
    SetupChildren(s);
    if x != 2 * s.id {
      var i :| 0 <= i < |Children(s)| && x in Ids(Children(Setup(s))[i]);
      SetupChildIds(s, i, x);
      IdsChild(s, i);
    }
  }

  lemma SetupId(s: Stmt)
    ensures Setup(s).id == 2 * s.id
  {
  }

  lemma WrappedIds(s: Stmt, c: Stmt, x: nat)
    requires x in Ids(SetupChild(s, c))
    ensures x in Ids(Setup(c)) || x == 2 * c.id + 1
  {
    hide Setup;
    var b := Block(2 * c.id + 1, Free, [Setup(c)]);
    assert Children(b) == [Setup(c)];
  }

  lemma {:induction false} SetupChildIds(s: Stmt, i: nat, x: nat)
    requires Unique(s) && i < |Children(s)| && i < |Children(Setup(s))| && x in Ids(Children(Setup(s))[i])
    ensures x / 2 in Ids(Children(s)[i]) && x / 2 != s.id
    decreases s, 0
  {
    hide Setup, Unique, Ids, SetupChild;
    SetupChildren(s);
    ApartFromChild(s, i);
    IdsChild(s, i);
    var c := Children(s)[i];
    WrappedIds(s, c, x);
    if x in Ids(Setup(c)) { SetupIds(c, x); } else { SelfId(c); }
  }

  lemma {:induction false} SetupUnique(s: Stmt)
    requires Unique(s)
    ensures Unique(Setup(s))
    decreases s
  {
    hide Setup;
    SetupId(s);
    SetupChildren(s);
    var cs := Children(Setup(s));
    forall i | 0 <= i < |cs| ensures 2 * s.id !in Ids(cs[i]) && Unique(cs[i]) {
      var c := Children(s)[i];
      SetupUnique(c);
      UniqueWrapped(c);
      if 2 * s.id in Ids(cs[i]) { SetupChildIds(s, i, 2 * s.id); }
    }
    forall i, j | 0 <= i < j < |cs| ensures Ids(cs[i]) !! Ids(cs[j]) {
      forall x | x in Ids(cs[i]) && x in Ids(cs[j]) ensures false {
        SetupChildIds(s, i, x);
        SetupChildIds(s, j, x);
      }
    }
  }

  lemma UniqueSingle(id: nat, t: Stmt)
    requires Unique(t) && id !in Ids(t)
    ensures Unique(Block(id, Free, [t]))
  {
    hide Ids;
    assert Children(Block(id, Free, [t])) == [t];
  }

  lemma UniqueWrapped(c: Stmt)
    requires Unique(c) && Unique(Setup(c))
    ensures Unique(Wrapped(c, Setup(c)))
  {
    hide Setup, Ids;
    if 2 * c.id + 1 in Ids(Setup(c)) { SetupIds(c, 2 * c.id + 1); }
    if !c.dec.Free? && !c.Block? { UniqueSingle(2 * c.id + 1, Setup(c)); }
  }

  lemma SetupFragment(d: Design, s: Stmt)
    requires Raw(d, s) && Unique(s) && (s.Block? ==> s.dec.Free?)
    ensures Fragment(d, SetupProcess(s))
  {
    hide Setup, Raw, Ids, Sheltered;
    ItemSetup(d, s);
    SetupUnique(s);
    SetupDec(s);
    SameKind(s);
    if !s.Block? {
      var b := SetupProcess(s);
      assert Children(b) == [Setup(s)];
      if 2 * s.id + 1 in Ids(Setup(s)) { SetupIds(s, 2 * s.id + 1); }
    }
  }

  lemma SetupProcessRun(e: Design, s: Stmt, w: World)
    requires e.atomic && (s.Block? ==> s.dec.Free?)
    ensures SetupProcess(s).Block? && RunProcess(e, SetupProcess(s), w) == Run(e, s, w)
  {
    hide Setup, RunFrom;
    SetupRun(e, s, w);
    SetupDec(s);
    SameKind(s);
    if !s.Block? { SingleItem(e, SetupProcess(s), w); }
  }

  /** An initial statement that nothing disturbs, set up and run through
      restarts, has the timed effects the text of the statement describes, read
      with delays that only add to the clock. */
  lemma IsolatedProcess(d: Design, s: Stmt, w: World)
    requires Isolated(d) && !d.atomic && Raw(d, s) && Unique(s) && (s.Block? ==> s.dec.Free?)
    ensures Fragment(d, SetupProcess(s)) && Resting(d, SetupProcess(s), Start(w))
    ensures var r := Drive(d, SetupProcess(s), Start(w));
      var o := Run(Atomic(d), s, w);
      Same(r.m.world, o.w) && (r.status.Done? <==> o.Fin?)
  {
    hide Run, RunFrom, SetupProcess, Fragment, Resting, Raw, Unique, Drive;
    SetupFragment(d, s);
    var root := SetupProcess(s);
    RestartsRefinePlain(d, root, w);
    FragmentIs(d, root);
    RunFromSim(d, root, 0, Woken(d, w), w);
    SetupProcessRun(Atomic(d), s, w);
  }
}
