/** The interpreter as the simulator runs it: it may return "delayed" from any
    depth and is later restarted from the root of the process. All memory
    between restarts is the block stack and a few flags in the statements. */
module Machine {
  import opened Wrappers
  import opened Program

  /** How a pending restart of the root was asked for. */
  datatype Wakeup =
    | Timer(at: nat)        // an entry in the time wheel
    | Inactive(at: nat)     // a zero delay, in the inactive queue
    | Sensed(at: nat)       // an armed event control
    | Requeue(at: nat)      // put back at the current time after a block ended

  /** The mutable fields of one statement object: `pushed` and `cur` of a block
      (is it on the stack, which item is running), the _delayed bits of the
      control before the statement (`armed`) and inside an assignment
      (`storing`), the captured operands of a delayed assignment, and `looped`
      and `count` of a loop. */
  datatype Fields = Fields(
    pushed: bool, cur: nat, armed: bool, storing: bool, pending: Option<Capture>, looped: bool, count: nat)

  datatype State = State(
    world: World,
    stk: seq<Stmt>,
    fields: map<nat, Fields>,
    wake: seq<Wakeup>)

  const IDLE := Fields(false, 0, false, false, None, false, 0)

  function Of(m: State, id: nat): Fields { if id in m.fields then m.fields[id] else IDLE }

  function Set(m: State, id: nat, f: Fields): (n: State)
    ensures Of(n, id) == f && forall x | x != id :: Of(n, x) == Of(m, x)
  {
    m.(fields := m.fields[id := f])
  }

  /** `Bound`: step bound reached. `Stuck`: a block found a larger block than
      itself on the stack, or another one than it had left there, and the machine
      gives up (never for the processes of module Shape). */
  datatype Status = Done | Delayed | Bound | Stuck

  datatype Result = Result(m: State, status: Status)

  /** Ask for a restart of the root when control `c` has elapsed. */
  function Arm(d: Design, c: Control, m: State): State {
    var at := m.world.now + Span(d, c, m.world);
    m.(wake := m.wake + [match c
                         case Event(_) => Sensed(at)
                         case _ => if at == m.world.now then Inactive(at) else Timer(at)])
  }

  function HandleDec(d: Design, s: Stmt, m: State): (r: Result) {
    if s.dec.Free? then Result(m, Done)
    else
      var f := Of(m, s.id);
      if f.armed then Result(Set(m, s.id, f.(armed := false)), Done)
      else Result(Arm(d, s.dec, Set(m, s.id, f.(armed := true))), Delayed)
  }

  function Trigger(d: Design, s: Stmt, m: State): (r: Result)
    ensures r.m.world.ticks <= m.world.ticks
    decreases m.world.ticks, Size(s), 5
  {
    var h := HandleDec(d, s, m);
    if h.status.Delayed? then h else Act(d, s, h.m)
  }

  function Act(d: Design, s: Stmt, m: State): (r: Result)
    ensures r.m.world.ticks <= m.world.ticks
    decreases m.world.ticks, Size(s), 4
  {
    match s
    case Null(_, _) => Result(m, Done)
    case Assign(_, _, _, _) => Assignment(d, s, m)
    case NonBlocking(_, _, move, store) =>
      Result(m.(world := Post(Read(d, move, m.world), store, m.world)), Done)
    case If(_, _, _, _, _) => Trigger(d, Children(s)[Picked(d, s, m.world.store)], m)
    case Case(_, _, _, _, _, _) => Trigger(d, Children(s)[Picked(d, s, m.world.store)], m)
    case Loop(_, _, _, _) =>
      var f := Of(m, s.id);
      if f.looped then LoopNextM(d, s, Set(m, s.id, f.(looped := false)))
      else LoopStartM(d, s, m)
    case Block(_, _, _) =>
      var m1 := Push(s, m);
      if m1.stk == [] then Result(m1, Done)
      else if !m1.stk[0].Block? || Size(m1.stk[0]) > Size(s) then Result(m1, Stuck)
      else Items(d, m1.stk[0], Of(m1, m1.stk[0].id).cur, m1)
  }

  function Assignment(d: Design, s: Stmt, m: State): (r: Result)
    requires s.Assign?
    ensures r.m.world.ticks <= m.world.ticks
  {
    var f := Of(m, s.id);
    if f.pending.Some? then
      Result(Set(m, s.id, f.(pending := None, storing := false))
             .(world := Commit(d, f.pending.value, m.world)), Done)
    else if s.store.Free? then Result(m.(world := MoveNow(d, s.move, m.world)), Done)
    else
      var g := f.(pending := Some(Read(d, s.move, m.world)),
                  armed := f.armed || !s.dec.Free?, storing := true);
      Result(Arm(d, s.store, Set(m, s.id, g)), Delayed)
  }

  function Push(s: Stmt, m: State): State {
    var f := Of(m, s.id);
    if f.pushed then m else Set(m, s.id, f.(pushed := true, cur := 0)).(stk := [s] + m.stk)
  }

  /** Run the items of the block on top of the stack from position `c`. */
  function Items(d: Design, b: Stmt, c: nat, m: State): (r: Result)
    requires b.Block? && m.stk != []
    ensures r.m.world.ticks <= m.world.ticks
    decreases m.world.ticks, Size(b), 1, |b.items| - c
  {
    if c >= |b.items| then
      Result(Set(m, b.id, Of(m, b.id).(pushed := false)).(stk := m.stk[1..]), Done)
    else
      var r := Trigger(d, Children(b)[c], m);
      if !r.status.Done? then r
      else if r.m.stk == [] || r.m.stk[0] != b then Result(r.m, Stuck)
      else Items(d, b, c + 1, Set(r.m, b.id, Of(r.m, b.id).(cur := c + 1)))
  }

  function LoopStartM(d: Design, s: Stmt, m: State): (r: Result)
    requires s.Loop?
    ensures r.m.world.ticks <= m.world.ticks
    decreases m.world.ticks, Size(s), 3
  {
    var w := m.world;
    match s.kind
    case Forever => LoopGoM(d, s, m)
    case Repeat(e) =>
      var n := d.times(e, w.store) % TWO32;
      var m1 := Set(m, s.id, Of(m, s.id).(count := n));
      if n == 0 then Result(m1, Done) else LoopGoM(d, s, m1)
    case While(e) => if d.test(e, w.store) then LoopGoM(d, s, m) else Result(m, Done)
    case For(first, e, _) =>
      var m1 := m.(world := MoveNow(d, first, w));
      if d.test(e, m1.world.store) then LoopGoM(d, s, m1) else Result(m1, Done)
  }

  function LoopGoM(d: Design, s: Stmt, m: State): (r: Result)
    requires s.Loop?
    ensures r.m.world.ticks <= m.world.ticks
    decreases m.world.ticks, Size(s), 1
  {
    if m.world.ticks == 0 then Result(m, Bound)
    else
      var r := Trigger(d, Children(s)[0], m.(world := m.world.(ticks := m.world.ticks - 1)));
      match r.status
      case Done => LoopNextM(d, s, r.m)
      case Delayed =>
        var f := Of(r.m, s.id);
        Result(Set(r.m, s.id, f.(looped := true, armed := f.armed || s.dec.Delay?)), Delayed)
      case _ => r
  }

  function LoopNextM(d: Design, s: Stmt, m: State): (r: Result)
    requires s.Loop?
    ensures r.m.world.ticks <= m.world.ticks
    decreases m.world.ticks, Size(s), 2
  {
    var w := m.world;
    match s.kind
    case Forever => LoopGoM(d, s, m)
    case Repeat(_) =>
      var n := (Of(m, s.id).count + TWO32 - 1) % TWO32;
      var m1 := Set(m, s.id, Of(m, s.id).(count := n));
      if n == 0 then Result(m1, Done) else LoopGoM(d, s, m1)
    case While(e) => if d.test(e, w.store) then LoopGoM(d, s, m) else Result(m, Done)
    case For(_, e, next) =>
      var m1 := m.(world := MoveNow(d, next, w));
      if d.test(e, m1.world.store) then LoopGoM(d, s, m1) else Result(m1, Done)
  }

  // ----- restarts -----

  /** After a root trigger that returned "finished": the enclosing block moves
      on, unless its current statement is a loop waiting to continue. */
  function PostProc(m: State): State {
    if m.stk == [] then m
    else
      var b := m.stk[0];
      var f := Of(m, b.id);
      var stay := b.Block? && f.cur < |b.items| && b.items[f.cur].Loop? && Of(m, b.items[f.cur].id).looped;
      (if stay then m else Set(m, b.id, f.(cur := f.cur + 1)))
      .(wake := m.wake + [Requeue(m.world.now)])
  }

  /** Deliver the oldest pending restart. A wait costs one tick. */
  function Deliver(d: Design, m: State): Result
    requires m.wake != []
  {
    var k := m.wake[0];
    if !k.Requeue? && m.world.ticks == 0 then Result(m, Bound)
    else
      var w := if k.Requeue? then m.world
               else m.world.(now := k.at, ticks := m.world.ticks - 1);
      Result(m.(wake := m.wake[1..], world := Woken(d, w)), Done)
  }

  function Step(d: Design, root: Stmt, m: State): (r: Result)
    requires m.wake != []
  {
    var v := Deliver(d, m);
    if !v.status.Done? then v
    else
      var r := Trigger(d, root, v.m);
      if r.status.Done? then Result(PostProc(r.m), Done) else r
  }

  /** The state in which an initial process is first triggered. */
  function Fresh(w: World): State {
    State(w, [], map[], [])
  }
}
