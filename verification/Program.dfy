/** Procedural statements, the design they run in, and a plain recursive
    semantics in which a delay only adds to the clock. */
module Program {
  import opened Logic

  type Store = map<nat, seq<Bit>>

  datatype Value = Value(bits: seq<Bit>, tristate: bool)

  /** Where an lvalue points once its bit and part selects are evaluated. */
  datatype Target = Target(lvalue: nat, selects: seq<(int, int)>)

  datatype Control = Free | Delay(amount: nat) | Event(name: nat)

  datatype Move = Move(lvalue: nat, rvalue: nat)

  datatype LoopKind =
    | Forever
    | Repeat(times: nat)
    | While(test: nat)
    | For(first: Move, test: nat, next: Move)

  /** `id` is the identity of the statement object. An absent else branch or
      default arm is a `Null` statement without a control. */
  datatype Stmt =
    | Null(id: nat, dec: Control)
    | Assign(id: nat, dec: Control, move: Move, store: Control)
    | NonBlocking(id: nat, dec: Control, move: Move, store: Control)
    | If(id: nat, dec: Control, test: nat, yes: Stmt, no: Stmt)
    | Case(id: nat, dec: Control, expr: nat, labels: seq<seq<nat>>, arms: seq<Stmt>, other: Stmt)
    | Loop(id: nat, dec: Control, kind: LoopKind, body: Stmt)
    | Block(id: nat, dec: Control, items: seq<Stmt>)

  datatype Effect =
    | Wrote(at: nat, target: Target, value: Value)
    | Posted(at: nat, after: Control, target: Target, value: Value)

  /** `ticks` bounds the run: every loop iteration and every delay costs one.
      `wakes` counts the restarts of the process. */
  datatype World = World(now: nat, store: Store, log: seq<Effect>, wakes: nat, ticks: nat)

  /** The expressions of the design and its environment. `disturb` gives the
      store a restarted process finds: other processes may have run meanwhile.
      `arrival` says how long an event control waits. With `atomic`, the plain
      semantics has no preemption point at the end of a suspended block. */
  datatype Design = Design(
    test: (nat, Store) -> bool,
    times: (nat, Store) -> nat,
    matches: (nat, nat, Store) -> bool,
    value: (nat, Store) -> Value,
    target: (nat, Store) -> Target,
    write: (Target, Value, Store) -> Store,
    arrival: (nat, World) -> nat,
    disturb: World -> Store,
    atomic: bool)

  const TWO32: nat := 0x1_0000_0000

  // ----- sizes and identities -----

  function Children(s: Stmt): (cs: seq<Stmt>)
    ensures forall i | 0 <= i < |cs| :: cs[i] < s
  {
    match s
    case If(_, _, _, yes, no) => [yes, no]
    case Case(_, _, _, _, arms, other) => arms + [other]
    case Loop(_, _, _, body) => [body]
    case Block(_, _, items) => items
    case _ => []
  }

  function Size(s: Stmt): (n: nat)
    ensures n > 0
    ensures forall i :: 0 <= i < |Children(s)| ==> Size(Children(s)[i]) < n
    decreases s
  {
    var cs := Children(s);
    1 + SizeAll(s, cs, 0)
  }

  function SizeAll(s: Stmt, cs: seq<Stmt>, k: nat): (n: nat)
    requires forall i | 0 <= i < |cs| :: cs[i] < s
    ensures forall i :: k <= i < |cs| ==> Size(cs[i]) <= n
    decreases s, |cs| - k
  {
    if k >= |cs| then 0 else Size(cs[k]) + SizeAll(s, cs, k + 1)
  }

  function Ids(s: Stmt): (r: set<nat>)
    ensures s.id in r
    decreases s
  {
    var cs := Children(s);
    {s.id} + set i, x | 0 <= i < |cs| && x in Ids(cs[i]) :: x
  }

  /** The first arm with a matching label, else the default. */
  function Matching(d: Design, s: Stmt, store: Store, k: nat): (i: nat)
    requires s.Case?
    ensures i < |Children(s)|
    decreases |s.arms| - k
  {
    if k >= |s.arms| || k >= |s.labels| then |s.arms|
    else if exists x | x in s.labels[k] :: d.matches(s.expr, x, store) then k
    else Matching(d, s, store, k + 1)
  }

  /** The position of the branch that runs. */
  function Picked(d: Design, s: Stmt, store: Store): (i: nat)
    requires s.If? || s.Case?
    ensures i < |Children(s)|
  {
    if s.Case? then Matching(d, s, store, 0) else if d.test(s.test, store) then 0 else 1
  }

  // ----- elementary actions -----

  datatype Capture = Capture(target: Target, value: Value)

  function Read(d: Design, m: Move, w: World): Capture {
    Capture(d.target(m.lvalue, w.store), d.value(m.rvalue, w.store))
  }

  function Commit(d: Design, c: Capture, w: World): World {
    if c.value.tristate then w
    else w.(store := d.write(c.target, c.value, w.store), log := w.log + [Wrote(w.now, c.target, c.value)])
  }

  function MoveNow(d: Design, m: Move, w: World): World {
    Commit(d, Read(d, m, w), w)
  }

  function Post(c: Capture, after: Control, w: World): World {
    w.(log := w.log + [Posted(w.now, after, c.target, c.value)])
  }

  function Span(d: Design, c: Control, w: World): nat {
    match c case Free => 0 case Delay(n) => n case Event(e) => d.arrival(e, w)
  }

  function Woken(d: Design, w: World): World {
    w.(store := d.disturb(w), wakes := w.wakes + 1)
  }

  // ----- plain semantics -----

  /** `Cut`: the step bound ran out. `paused`: at least one delay was passed. */
  datatype Outcome = Fin(w: World, paused: bool) | Cut(w: World)

  function Join(paused: bool, o: Outcome): Outcome {
    if o.Cut? then o else Fin(o.w, paused || o.paused)
  }

  function Wait(d: Design, c: Control, w: World): Outcome {
    if w.ticks == 0 then Cut(w)
    else Fin(Woken(d, w.(now := w.now + Span(d, c, w), ticks := w.ticks - 1)), true)
  }

  /** A block that was suspended gives the other processes of the current time
      a turn when it ends. */
  function Yield(d: Design, o: Outcome): Outcome {
    if o.Cut? || d.atomic then o else Fin(Woken(d, o.w), o.paused)
  }

  function Run(d: Design, s: Stmt, w: World): (o: Outcome)
    ensures o.w.ticks <= w.ticks
    decreases w.ticks, Size(s), 5
  {
    if s.dec.Free? then Body(d, s, w)
    else
      var o := Wait(d, s.dec, w);
      if o.Cut? then o else Join(true, Body(d, s, o.w))
  }

  function Body(d: Design, s: Stmt, w: World): (o: Outcome)
    ensures o.w.ticks <= w.ticks
    decreases w.ticks, Size(s), 4
  {
    match s
    case Null(_, _) => Fin(w, false)
    case Assign(_, _, move, store) =>
      if store.Free? then Fin(MoveNow(d, move, w), false)
      else
        var o := Wait(d, store, w);
        if o.Cut? then o else Fin(Commit(d, Read(d, move, w), o.w), true)
    case NonBlocking(_, _, move, store) => Fin(Post(Read(d, move, w), store, w), false)
    case If(_, _, _, _, _) => Run(d, Children(s)[Picked(d, s, w.store)], w)
    case Case(_, _, _, _, _, _) => Run(d, Children(s)[Picked(d, s, w.store)], w)
    case Loop(_, _, _, _) => LoopStart(d, s, w)
    case Block(_, _, _) =>
      var o := RunFrom(d, s, 0, w);
      if o.Fin? && o.paused then Yield(d, o) else o
  }

  function RunFrom(d: Design, b: Stmt, i: nat, w: World): (o: Outcome)
    requires b.Block?
    ensures o.w.ticks <= w.ticks
    decreases w.ticks, Size(b), 1, |b.items| - i
  {
    if i >= |b.items| then Fin(w, false)
    else
      var o := Run(d, Children(b)[i], w);
      if o.Cut? then o else Join(o.paused, RunFrom(d, b, i + 1, o.w))
  }

  function LoopStart(d: Design, s: Stmt, w: World): (o: Outcome)
    requires s.Loop?
    ensures o.w.ticks <= w.ticks
    decreases w.ticks, Size(s), 3
  {
    match s.kind
    case Forever => LoopGo(d, s, 0, w)
    case Repeat(e) =>
      var n := d.times(e, w.store) % TWO32;
      if n == 0 then Fin(w, false) else LoopGo(d, s, n, w)
    case While(e) => if d.test(e, w.store) then LoopGo(d, s, 0, w) else Fin(w, false)
    case For(first, e, _) =>
      var w1 := MoveNow(d, first, w);
      if d.test(e, w1.store) then LoopGo(d, s, 0, w1) else Fin(w1, false)
  }

  /** One iteration and what follows; `n` counts a repeat loop down. */
  function LoopGo(d: Design, s: Stmt, n: nat, w: World): (o: Outcome)
    requires s.Loop?
    ensures o.w.ticks <= w.ticks
    decreases w.ticks, Size(s), 1
  {
    if w.ticks == 0 then Cut(w)
    else
      var o := Run(d, Children(s)[0], w.(ticks := w.ticks - 1));
      if o.Cut? then o else Join(o.paused, LoopNext(d, s, n, o.w))
  }

  function LoopNext(d: Design, s: Stmt, n: nat, w: World): (o: Outcome)
    requires s.Loop?
    ensures o.w.ticks <= w.ticks
    decreases w.ticks, Size(s), 2
  {
    match s.kind
    case Forever => LoopGo(d, s, 0, w)
    case Repeat(_) => if n <= 1 then Fin(w, false) else LoopGo(d, s, n - 1, w)
    case While(e) => if d.test(e, w.store) then LoopGo(d, s, 0, w) else Fin(w, false)
    case For(_, e, next) =>
      var w1 := MoveNow(d, next, w);
      if d.test(e, w1.store) then LoopGo(d, s, 0, w1) else Fin(w1, false)
  }

  /** An initial process: its outermost block ends without a preemption point. */
  function RunProcess(d: Design, root: Stmt, w: World): Outcome
    requires root.Block?
  {
    RunFrom(d, root, 0, w)
  }
}
