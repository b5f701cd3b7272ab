/** Nonblocking assignments: operands are captured when the statement runs, and
    stored by an update event after the active statements. */
module Nonblocking {
  import opened Program

  /** A statement of the active phase: a blocking assignment, or nonblocking
      assignment number `k`. */
  datatype Action = Blocking(move: Move) | Deferred(k: nat)

  /** The update statement of assignment `k` holds its captured operands in
      `value`; `queue` holds the update events, each at most once. */
  datatype State = State(world: World, queue: seq<nat>, value: map<nat, Capture>)

  type Moves = nat -> Move

  // ----- the specification of one phase -----

  function Execute(d: Design, moves: Moves, a: Action, s: State): State {
    match a
    case Blocking(m) => s.(world := MoveNow(d, m, s.world))
    case Deferred(k) =>
      s.(value := s.value[k := Read(d, moves(k), s.world)],
         queue := if k in s.queue then s.queue else s.queue + [k])
  }

  function ExecuteAll(d: Design, moves: Moves, acts: seq<Action>, s: State): State {
    if acts == [] then s else ExecuteAll(d, moves, acts[1..], Execute(d, moves, acts[0], s))
  }

  /** Run the queued updates in order. An update is an assignment of its own,
      which evaluates its operands when it finds none captured. */
  function Update(d: Design, moves: Moves, s: State): World
    decreases |s.queue|
  {
    if s.queue == [] then s.world
    else
      var k := s.queue[0];
      var w := if k in s.value then Commit(d, s.value[k], s.world) else MoveNow(d, moves(k), s.world);
      Update(d, moves, State(w, s.queue[1..], s.value - {k}))
  }

  // ----- what it means: a parallel assignment -----

  /** The world after the blocking assignments alone. */
  function Active(d: Design, acts: seq<Action>, w: World): World {
    if acts == [] then w
    else Active(d, acts[1..], if acts[0].Blocking? then MoveNow(d, acts[0].move, w) else w)
  }

  /** What each nonblocking assignment reads, at the moment it runs. */
  function Captures(d: Design, moves: Moves, acts: seq<Action>, w: World): seq<Capture> {
    if acts == [] then []
    else if acts[0].Blocking? then Captures(d, moves, acts[1..], MoveNow(d, acts[0].move, w))
    else [Read(d, moves(acts[0].k), w)] + Captures(d, moves, acts[1..], w)
  }

  function Deferrals(acts: seq<Action>): seq<nat> {
    if acts == [] then []
    else (if acts[0].Deferred? then [acts[0].k] else []) + Deferrals(acts[1..])
  }

  function CommitAll(d: Design, cs: seq<Capture>, w: World): World {
    if cs == [] then w else CommitAll(d, cs[1..], Commit(d, cs[0], w))
  }

  ghost predicate Distinct(s: seq<nat>) { forall i, j | 0 <= i < j < |s| :: s[i] != s[j] }

  /** The captures in the order of the queue. */
  function Queued(queue: seq<nat>, value: map<nat, Capture>): seq<Capture> {
    if queue == [] then []
    else (if queue[0] in value then [value[queue[0]]] else []) + Queued(queue[1..], value)
  }

  lemma {:induction false} QueuedSame(queue: seq<nat>, v: map<nat, Capture>, u: map<nat, Capture>)
    requires forall k | k in queue :: (k in v <==> k in u) && (k in v ==> v[k] == u[k])
    ensures Queued(queue, v) == Queued(queue, u)
  {
    if queue != [] {
      assert queue[0] in queue;
      QueuedSame(queue[1..], v, u);
    }
  }

  lemma QueuedStep(queue: seq<nat>, v: map<nat, Capture>)
    requires queue != []
    ensures Queued(queue, v) == (if queue[0] in v then [v[queue[0]]] else []) + Queued(queue[1..], v)
  {
  }

  lemma Joining(a: seq<Capture>, b: seq<Capture>, c: seq<Capture>)
    ensures a + (b + c) == (a + b) + c
  {
  }

  lemma {:induction false} QueuedAppend(queue: seq<nat>, v: map<nat, Capture>, k: nat)
    requires k in v
    ensures Queued(queue + [k], v) == Queued(queue, v) + [v[k]]
  {
    if queue == [] {
      assert [k][1..] == [];
    } else {
      hide Queued;
      QueuedAppend(queue[1..], v, k);
      QueuedStep(queue, v);
      QueuedStep(queue + [k], v);
      assert (queue + [k])[1..] == queue[1..] + [k];
      Joining(if queue[0] in v then [v[queue[0]]] else [], Queued(queue[1..], v), [v[k]]);
    }
  }

  lemma {:induction false} UpdateCommits(d: Design, moves: Moves, s: State)
    requires Distinct(s.queue) && AllCaptured(s)
    ensures Update(d, moves, s) == CommitAll(d, Queued(s.queue, s.value), s.world)
    decreases |s.queue|
  {
    if s.queue != [] {
      var k := s.queue[0];
      var w := Commit(d, s.value[k], s.world);
      UpdateCommits(d, moves, State(w, s.queue[1..], s.value - {k}));
      QueuedSame(s.queue[1..], s.value, s.value - {k});
      var rest := Queued(s.queue[1..], s.value);
      assert ([s.value[k]] + rest)[1..] == rest;
    }
  }

  ghost predicate AllCaptured(s: State) { forall k | k in s.queue :: k in s.value }

  /** Whatever is queued has its operands captured. */
  lemma {:induction false} ExecuteCaptures(d: Design, moves: Moves, acts: seq<Action>, s: State)
    requires AllCaptured(s)
    ensures AllCaptured(ExecuteAll(d, moves, acts, s))
  {
    if acts != [] { ExecuteCaptures(d, moves, acts[1..], Execute(d, moves, acts[0], s)); }
  }

  /** No nonblocking assignment runs twice, nor while its update is queued. */
  ghost predicate Once(acts: seq<Action>, queue: seq<nat>) {
    Distinct(queue + Deferrals(acts))
  }

  lemma {:induction false} ExecuteMeans(d: Design, moves: Moves, acts: seq<Action>, s: State)
    requires Once(acts, s.queue)
    ensures var t := ExecuteAll(d, moves, acts, s);
      t.world == Active(d, acts, s.world) && t.queue == s.queue + Deferrals(acts) &&
      Queued(t.queue, t.value) == Queued(s.queue, s.value) + Captures(d, moves, acts, s.world)
  {
    if acts != [] {
      var n := Execute(d, moves, acts[0], s);
      if acts[0].Deferred? {
        var k := acts[0].k;
        NotQueued(acts, s.queue);
        assert n.queue + Deferrals(acts[1..]) == s.queue + Deferrals(acts);
        QueuedSame(s.queue, s.value, n.value);
        QueuedAppend(s.queue, n.value, k);
      } else {
        assert Deferrals(acts) == Deferrals(acts[1..]);
      }
      ExecuteMeans(d, moves, acts[1..], n);
    }
  }

  lemma NotQueued(acts: seq<Action>, queue: seq<nat>)
    requires Once(acts, queue) && acts != [] && acts[0].Deferred?
    ensures acts[0].k !in queue
  {
    var all := queue + Deferrals(acts);
    assert all[|queue|] == acts[0].k;
    forall i | 0 <= i < |queue| ensures queue[i] != acts[0].k { assert all[i] == queue[i]; }
  }

  /** Nonblocking assignments that run in one active phase act as one parallel
      assignment: the updates store, in queue order, what each statement read
      when it ran, on top of what the blocking assignments left. */
  lemma ParallelAssignment(d: Design, moves: Moves, acts: seq<Action>, w: World)
    requires Distinct(Deferrals(acts))
    ensures Update(d, moves, ExecuteAll(d, moves, acts, State(w, [], map[]))) ==
      CommitAll(d, Captures(d, moves, acts, w), Active(d, acts, w))
  {
    var s := State(w, [], map[]);
    assert [] + Deferrals(acts) == Deferrals(acts);
    ExecuteMeans(d, moves, acts, s);
    ExecuteCaptures(d, moves, acts, s);
    UpdateCommits(d, moves, ExecuteAll(d, moves, acts, s));
    assert [] + Captures(d, moves, acts, w) == Captures(d, moves, acts, w);
  }

  /** `a <= b; b <= a;` swaps, in every design in which nets hold what was last
      stored in them. */
  lemma SwapSwaps(d: Design, moves: Moves, w: World, a: nat, b: nat)
    requires a in w.store && b in w.store && a != b
    requires moves(0) == Move(a, b) && moves(1) == Move(b, a)
    requires forall x, st: Store | x in st :: d.value(x, st) == Value(st[x], false)
    requires forall x, st: Store :: d.target(x, st) == Target(x, [])
    requires forall x, v: Value, st: Store :: d.write(Target(x, []), v, st) == st[x := v.bits]
    ensures var acts := [Deferred(0), Deferred(1)];
      Update(d, moves, ExecuteAll(d, moves, acts, State(w, [], map[]))).store ==
      w.store[a := w.store[b]][b := w.store[a]]
  {
    var acts := [Deferred(0), Deferred(1)];
    var c0, c1 := Read(d, Move(a, b), w), Read(d, Move(b, a), w);
    TwoDeferred(d, moves, w);
    ParallelAssignment(d, moves, acts, w);
    TwoCommits(d, c0, c1, w);
  }

  lemma TwoDeferred(d: Design, moves: Moves, w: World)
    ensures var acts := [Deferred(0), Deferred(1)];
      Deferrals(acts) == [0, 1] && Active(d, acts, w) == w &&
      Captures(d, moves, acts, w) == [Read(d, moves(0), w), Read(d, moves(1), w)]
  {
    var acts := [Deferred(0), Deferred(1)];
    assert acts[1..] == [Deferred(1)] && acts[1..][1..] == [];
    assert Captures(d, moves, acts[1..], w) == [Read(d, moves(1), w)] + Captures(d, moves, [], w);
    assert Deferrals(acts[1..]) == [1] + Deferrals([]);
    assert Active(d, acts[1..], w) == w;
  }

  lemma TwoCommits(d: Design, c0: Capture, c1: Capture, w: World)
    ensures CommitAll(d, [c0, c1], w) == Commit(d, c1, Commit(d, c0, w))
  {
    assert [c0, c1][1..] == [c1] && [c1][1..] == [];
    assert CommitAll(d, [c1], Commit(d, c0, w)) == CommitAll(d, [], Commit(d, c1, Commit(d, c0, w)));
  }

  // ----- statements that run more than once -----

  /** What is in `q` and not in `seen`. */
  function Less(q: seq<nat>, seen: seq<nat>): (r: seq<nat>)
    ensures forall x :: x in r <==> x in q && x !in seen
  {
    if q == [] then [] else (if q[0] in seen then [] else [q[0]]) + Less(q[1..], seen)
  }

  /** The nonblocking assignments that run, each once, in the order of their
      first runs. */
  function Firsts(acts: seq<Action>): seq<nat> {
    if acts == [] then []
    else if acts[0].Blocking? then Firsts(acts[1..])
    else [acts[0].k] + Less(Firsts(acts[1..]), [acts[0].k])
  }

  /** What each nonblocking assignment reads when it runs for the last time. */
  function LastReads(d: Design, moves: Moves, acts: seq<Action>, w: World): map<nat, Capture> {
    if acts == [] then map[]
    else if acts[0].Blocking? then LastReads(d, moves, acts[1..], MoveNow(d, acts[0].move, w))
    else map[acts[0].k := Read(d, moves(acts[0].k), w)] + LastReads(d, moves, acts[1..], w)
  }

  lemma {:induction false} LessLess(q: seq<nat>, k: nat, seen: seq<nat>)
    ensures Less(Less(q, [k]), seen) == Less(q, seen + [k])
  {
    if q != [] {
      LessLess(q[1..], k, seen);
      var r := Less(q[1..], [k]);
      if q[0] != k { assert ([q[0]] + r)[1..] == r; } else { assert [] + r == r; }
    }
  }

  lemma {:induction false} LessSame(q: seq<nat>, p: seq<nat>, s: seq<nat>)
    requires forall x :: x in p <==> x in s
    ensures Less(q, p) == Less(q, s)
  {
    if q != [] { LessSame(q[1..], p, s); }
  }

  lemma {:induction false} LessNone(q: seq<nat>)
    ensures Less(q, []) == q
  {
    if q != [] { LessNone(q[1..]); }
  }

  lemma LessCons(k: nat, r: seq<nat>, seen: seq<nat>)
    ensures Less([k] + r, seen) == (if k in seen then [] else [k]) + Less(r, seen)
  {
    assert ([k] + r)[1..] == r;
  }

  /** One more statement in front, and what is queued then. */
  lemma QueueNext(k: nat, f: seq<nat>, q: seq<nat>)
    requires Distinct(q)
    ensures var n := if k in q then q else q + [k];
      Distinct(n) && n + Less(f, n) == q + Less([k] + Less(f, [k]), q)
  {
    hide Less;
    LessLess(f, k, q);
    LessCons(k, Less(f, [k]), q);
    var rest := Less(f, q + [k]);
    if k in q {
      LessSame(f, q, q + [k]);
      assert [] + rest == rest;
    } else {
      assert (q + [k]) + rest == q + ([k] + rest);
    }
  }

  lemma ReadFirst(v: map<nat, Capture>, k: nat, c: Capture, m: map<nat, Capture>)
    ensures v[k := c] + m == v + (map[k := c] + m)
  {
  }

  /** What the actions leave, from any state, if they leave `t` when the first is
      taken off. */
  lemma ExecuteOne(d: Design, moves: Moves, acts: seq<Action>, s: State, t: State)
    requires acts != [] && acts[0].Deferred? && Distinct(s.queue)
    requires var n := Execute(d, moves, acts[0], s);
      t.queue == n.queue + Less(Firsts(acts[1..]), n.queue) &&
      t.value == n.value + LastReads(d, moves, acts[1..], n.world)
    ensures t.queue == s.queue + Less(Firsts(acts), s.queue) && t.value == s.value + LastReads(d, moves, acts, s.world)
  {
    hide Less, Distinct, MoveNow, Read;
    var k := acts[0].k;
    QueueNext(k, Firsts(acts[1..]), s.queue);
    ReadFirst(s.value, k, Read(d, moves(k), s.world), LastReads(d, moves, acts[1..], s.world));
  }

  lemma {:induction false} ExecuteAny(d: Design, moves: Moves, acts: seq<Action>, s: State)
    requires Distinct(s.queue)
    ensures var t := ExecuteAll(d, moves, acts, s);
      t.world == Active(d, acts, s.world) && t.queue == s.queue + Less(Firsts(acts), s.queue) && Distinct(t.queue) &&
      t.value == s.value + LastReads(d, moves, acts, s.world)
  {
    if acts == [] {
      assert s.value + map[] == s.value;
    } else if acts[0].Deferred? {
      var n := Execute(d, moves, acts[0], s);
      QueueNext(acts[0].k, Firsts(acts[1..]), s.queue);
      hide Less, Distinct, MoveNow, Read, Firsts, LastReads;
      ExecuteAny(d, moves, acts[1..], n);
      ExecuteOne(d, moves, acts, s, ExecuteAll(d, moves, acts[1..], n));
    } else {
      hide Less, Distinct, MoveNow, Read;
      ExecuteAny(d, moves, acts[1..], Execute(d, moves, acts[0], s));
    }
  }

  /** Whatever runs in one active phase, and however often: every nonblocking
      assignment that ran is stored once, in the order of the first runs, and
      stores what its last run read. */
  lemma LastRunStored(d: Design, moves: Moves, acts: seq<Action>, w: World)
    ensures Update(d, moves, ExecuteAll(d, moves, acts, State(w, [], map[]))) ==
      CommitAll(d, Queued(Firsts(acts), LastReads(d, moves, acts, w)), Active(d, acts, w))
  {
    var s := State(w, [], map[]);
    LessNone(Firsts(acts));
    ExecuteAny(d, moves, acts, s);
    assert [] + Firsts(acts) == Firsts(acts);
    assert map[] + LastReads(d, moves, acts, w) == LastReads(d, moves, acts, w);
    ExecuteCaptures(d, moves, acts, s);
    UpdateCommits(d, moves, ExecuteAll(d, moves, acts, s));
  }

  function FirstAt(acts: seq<Action>, k: nat): (i: nat)
    requires Deferred(k) in acts
    ensures i < |acts| && acts[i] == Deferred(k) && forall j | 0 <= j < i :: acts[j] != Deferred(k)
  {
    if acts[0] == Deferred(k) then 0 else 1 + FirstAt(acts[1..], k)
  }

  ghost predicate ByFirst(acts: seq<Action>, q: seq<nat>) {
    (forall x | x in q :: Deferred(x) in acts) &&
    forall i, j | 0 <= i < j < |q| :: FirstAt(acts, q[i]) < FirstAt(acts, q[j])
  }

  lemma {:induction false} LessOrdered(acts: seq<Action>, q: seq<nat>, k: nat)
    requires ByFirst(acts, q)
    ensures ByFirst(acts, Less(q, [k]))
  {
    if q != [] {
      var r := Less(q[1..], [k]);
      LessOrdered(acts, q[1..], k);
      hide FirstAt;
      forall x | x in r ensures FirstAt(acts, q[0]) < FirstAt(acts, x) { FirstBefore(acts, q, x); }
    }
  }

  lemma FirstBefore(acts: seq<Action>, q: seq<nat>, x: nat)
    requires ByFirst(acts, q) && q != [] && x in q[1..]
    ensures FirstAt(acts, q[0]) < FirstAt(acts, x)
  {
    hide FirstAt;
    var j :| 0 <= j < |q[1..]| && q[1..][j] == x;
    assert q[j + 1] == x;
  }

  lemma FirstLater(acts: seq<Action>, k: nat)
    requires acts != [] && acts[0] != Deferred(k) && Deferred(k) in acts[1..]
    ensures Deferred(k) in acts && FirstAt(acts, k) == 1 + FirstAt(acts[1..], k)
  {
  }

  lemma ByFirstLater(acts: seq<Action>, q: seq<nat>)
    requires acts != [] && ByFirst(acts[1..], q) && forall x | x in q :: acts[0] != Deferred(x)
    ensures ByFirst(acts, q)
  {
    hide FirstAt;
    forall x | x in q ensures Deferred(x) in acts && FirstAt(acts, x) == 1 + FirstAt(acts[1..], x) {
      FirstLater(acts, x);
    }
  }

  lemma ByFirstFront(acts: seq<Action>, k: nat, q: seq<nat>)
    requires acts != [] && acts[0] == Deferred(k) && ByFirst(acts[1..], q) && k !in q
    ensures ByFirst(acts, [k] + q)
  {
    ByFirstLater(acts, q);
    var r := [k] + q;
    assert FirstAt(acts, k) == 0;
    hide FirstAt;
    forall j | 0 < j < |r| ensures FirstAt(acts, r[j]) > 0 && r[j] == q[j - 1] {
      assert acts[FirstAt(acts, r[j])] == Deferred(r[j]) by { FirstLater(acts, r[j]); }
    }
  }

  /** `Firsts` holds just the assignments that run, ordered by their first run. */
  lemma {:induction false} FirstsOrder(acts: seq<Action>)
    ensures ByFirst(acts, Firsts(acts)) && forall k :: k in Firsts(acts) <==> Deferred(k) in acts
  {
    if acts != [] {
      FirstsOrder(acts[1..]);
      var f := Firsts(acts[1..]);
      hide FirstAt;
      if acts[0].Deferred? {
        var k := acts[0].k;
        LessOrdered(acts[1..], f, k);
        hide ByFirst, Less;
        ByFirstFront(acts, k, Less(f, [k]));
      } else {
        ByFirstLater(acts, f);
        hide ByFirst;
      }
      forall k ensures Deferred(k) in acts <==> acts[0] == Deferred(k) || Deferred(k) in acts[1..] {
        assert acts == [acts[0]] + acts[1..];
      }
    }
  }

  /** `LastReads` holds what the last run of each read. */
  lemma {:induction false} LastReadsAt(d: Design, moves: Moves, acts: seq<Action>, w: World, i: nat, k: nat)
    requires i < |acts| && acts[i] == Deferred(k) && forall j | i < j < |acts| :: acts[j] != Deferred(k)
    ensures k in LastReads(d, moves, acts, w)
    ensures LastReads(d, moves, acts, w)[k] == Read(d, moves(k), Active(d, acts[..i], w))
  {
    if i == 0 {
      NotRead(d, moves, acts[1..], w, k);
    } else {
      var v := if acts[0].Blocking? then MoveNow(d, acts[0].move, w) else w;
      LastReadsAt(d, moves, acts[1..], v, i - 1, k);
      assert acts[..i][1..] == acts[1..][..i - 1];
    }
  }

  lemma {:induction false} NotRead(d: Design, moves: Moves, acts: seq<Action>, w: World, k: nat)
    requires forall j | 0 <= j < |acts| :: acts[j] != Deferred(k)
    ensures k !in LastReads(d, moves, acts, w)
  {
    if acts != [] { NotRead(d, moves, acts[1..], if acts[0].Blocking? then MoveNow(d, acts[0].move, w) else w, k); }
  }

  // ----- the statements, updating in place -----

  class Phase {
    const design: Design
    const moves: Moves
    var world: World
    var queue: seq<nat>
    var value: map<nat, Capture>

    constructor (d: Design, m: Moves, w: World)
      ensures design == d && moves == m && Snap() == State(w, [], map[])
    {
      design, moves, world, queue, value := d, m, w, [], map[];
    }

    function Snap(): State
      reads this
    {
      State(world, queue, value)
    }

    method Trigger(a: Action)
      modifies this
      ensures Snap() == Execute(design, moves, a, old(Snap()))
    {
      match a {
        case Blocking(m) => world := MoveNow(design, m, world);
        case Deferred(k) =>
          value := value[k := Read(design, moves(k), world)];
          if k !in queue { queue := queue + [k]; }
      }
    }

    /** The update statement: store the captured operands and forget them. */
    method Store(k: nat)
      modifies this`world, this`value
      ensures world ==
        if k in old(value) then Commit(design, old(value)[k], old(world)) else MoveNow(design, moves(k), old(world))
      ensures value == old(value) - {k}
    {
      if k in value {
        world := Commit(design, value[k], world);
        value := value - {k};
      } else {
        world := MoveNow(design, moves(k), world);
      }
    }

    /** Run the active statements, then the batch of updates. */
    method Run(acts: seq<Action>)
      requires Snap() == State(world, [], map[])
      modifies this
      ensures queue == []
      ensures world == CommitAll(design, Queued(Firsts(acts), LastReads(design, moves, acts, old(world))),
                                 Active(design, acts, old(world)))
      ensures Distinct(Deferrals(acts)) ==>
        world == CommitAll(design, Captures(design, moves, acts, old(world)), Active(design, acts, old(world)))
    {
      LastRunStored(design, moves, acts, world);
      if Distinct(Deferrals(acts)) { ParallelAssignment(design, moves, acts, world); }
      var i := 0;
      while i < |acts|
        invariant i <= |acts|
        invariant ExecuteAll(design, moves, acts[i..], Snap()) == ExecuteAll(design, moves, acts, old(Snap()))
      {
        assert acts[i..][1..] == acts[i + 1..];
        Trigger(acts[i]);
        i := i + 1;
      }
      while queue != []
        invariant Update(design, moves, Snap()) == Update(design, moves, ExecuteAll(design, moves, acts, old(Snap())))
        decreases |queue|
      {
        Store(queue[0]);
        queue := queue[1..];
      }
    }
  }
}
