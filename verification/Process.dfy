/** The interpreter in the form the simulator has it: methods that update the
    block stack and the fields of statements in place. */
module Process {
  import opened Wrappers
  import opened Program
  import opened Machine
  import opened Shape
  import Restarts

  class Process {
    const design: Design
    const root: Stmt
    var world: World
    var stk: seq<Stmt>
    var fields: map<nat, Fields>
    var wake: seq<Wakeup>

    function Snap(): State
      reads this
    {
      State(world, stk, fields, wake)
    }

    constructor (d: Design, s: Stmt, w: World)
      ensures design == d && root == s && Snap() == Restarts.Start(w)
    {
      design, root := d, s;
      world, stk, fields, wake := w, [], map[], [Requeue(w.now)];
    }

    function At(id: nat): Fields
      reads this
    {
      Of(Snap(), id)
    }

    method Put(id: nat, f: Fields)
      modifies this`fields
      ensures Snap() == Set(old(Snap()), id, f)
    {
      fields := fields[id := f];
    }

    /** Schedule a restart of the root when the control has elapsed. */
    method Schedule(c: Control)
      modifies this`wake
      ensures Snap() == Arm(design, c, old(Snap()))
    {
      var at := world.now + Span(design, c, world);
      if c.Event? {
        wake := wake + [Sensed(at)];
      } else if at == world.now {
        wake := wake + [Inactive(at)];
      } else {
        wake := wake + [Timer(at)];
      }
    }

    method TriggerStmt(s: Stmt) returns (status: Status)
      modifies this
      ensures Result(Snap(), status) == Trigger(design, s, old(Snap()))
      decreases world.ticks, Size(s), 5
    {
      if !s.dec.Free? {
        var f := At(s.id);
        if f.armed {
          Put(s.id, f.(armed := false));
        } else {
          Put(s.id, f.(armed := true));
          Schedule(s.dec);
          return Delayed;
        }
      }
      status := ActStmt(s);
    }

    method ActStmt(s: Stmt) returns (status: Status)
      modifies this
      ensures Result(Snap(), status) == Act(design, s, old(Snap()))
      decreases world.ticks, Size(s), 4
    {
      match s {
        case Null(_, _) => status := Done;
        case Assign(_, _, _, _) => status := TriggerAssignment(s);
        case NonBlocking(_, _, move, store) =>
          world := Post(Read(design, move, world), store, world);
          status := Done;
        case If(_, _, _, _, _) => status := TriggerStmt(Children(s)[Picked(design, s, world.store)]);
        case Case(_, _, _, _, _, _) => status := TriggerStmt(Children(s)[Picked(design, s, world.store)]);
        case Loop(_, _, _, _) => status := TriggerLoop(s);
        case Block(_, _, _) => status := TriggerBlock(s);
      }
    }

    method TriggerAssignment(s: Stmt) returns (status: Status)
      requires s.Assign?
      modifies this
      ensures Result(Snap(), status) == Assignment(design, s, old(Snap()))
    {
      var f := At(s.id);
      if f.pending.Some? {
        world := Commit(design, f.pending.value, world);
        Put(s.id, f.(pending := None, storing := false));
        status := Done;
      } else if s.store.Free? {
        world := MoveNow(design, s.move, world);
        status := Done;
      } else {
        Put(s.id, f.(pending := Some(Read(design, s.move, world)),
                     armed := f.armed || !s.dec.Free?, storing := true));
        Schedule(s.store);
        status := Delayed;
      }
    }

    /** Put a block that is not there yet on the stack. */
    method EnterBlock(s: Stmt)
      modifies this`stk, this`fields
      ensures Snap() == Push(s, old(Snap()))
    {
      if !At(s.id).pushed {
        stk := [s] + stk;
        Put(s.id, At(s.id).(pushed := true, cur := 0));
      }
    }

    /** Run the block on top of the stack, one statement after the other. */
    method TriggerBlock(s: Stmt) returns (status: Status)
      requires s.Block?
      modifies this
      ensures Result(Snap(), status) == Act(design, s, old(Snap()))
      decreases world.ticks, Size(s), 3
    {
      EnterBlock(s);
      if stk == [] { return Done; }
      var nesting := stk[0];
      if !nesting.Block? || Size(nesting) > Size(s) { return Stuck; }
      var c := At(nesting.id).cur;
      while c < |nesting.items|
        invariant stk != [] && stk[0] == nesting && world.ticks <= old(world.ticks)
        invariant Items(design, nesting, c, Snap()) == Act(design, s, old(Snap()))
        decreases |nesting.items| - c
      {
        status := RunItem(nesting, c);
        if status != Done { return; }
        c := c + 1;
      }
      Put(nesting.id, At(nesting.id).(pushed := false));
      stk := stk[1..];
      status := Done;
    }

    /** Run one statement of the block on top and move on to the next. */
    method RunItem(b: Stmt, c: nat) returns (status: Status)
      requires b.Block? && c < |b.items| && stk != [] && stk[0] == b
      modifies this
      ensures world.ticks <= old(world.ticks) && (status == Done ==> stk != [] && stk[0] == b)
      ensures Items(design, b, c, old(Snap())) ==
        if status == Done then Items(design, b, c + 1, Snap()) else Result(Snap(), status)
      decreases world.ticks, Size(b), 2
    {
      status := TriggerStmt(Children(b)[c]);
      if status != Done { return; }
      if stk == [] || stk[0] != b { return Stuck; }
      Put(b.id, At(b.id).(cur := c + 1));
    }

    /** Start of a loop: does the first iteration run? */
    method PreExecute(s: Stmt) returns (test: bool)
      requires s.Loop?
      modifies this
      ensures world.ticks <= old(world.ticks)
      ensures LoopStartM(design, s, old(Snap())) ==
        if test then LoopGoM(design, s, Snap()) else Result(Snap(), Done)
    {
      match s.kind {
        case Forever => test := true;
        case Repeat(e) =>
          var n := design.times(e, world.store) % TWO32;
          Put(s.id, At(s.id).(count := n));
          test := n != 0;
        case While(e) => test := design.test(e, world.store);
        case For(first, e, _) =>
          world := MoveNow(design, first, world);
          test := design.test(e, world.store);
      }
    }

    /** End of an iteration: does the next one run? */
    method PostExecute(s: Stmt) returns (test: bool)
      requires s.Loop?
      modifies this
      ensures world.ticks <= old(world.ticks)
      ensures LoopNextM(design, s, old(Snap())) ==
        if test then LoopGoM(design, s, Snap()) else Result(Snap(), Done)
    {
      match s.kind {
        case Forever => test := true;
        case Repeat(_) =>
          var n := (At(s.id).count + TWO32 - 1) % TWO32;
          Put(s.id, At(s.id).(count := n));
          test := n != 0;
        case While(e) => test := design.test(e, world.store);
        case For(_, e, next) =>
          world := MoveNow(design, next, world);
          test := design.test(e, world.store);
      }
    }

    method TriggerLoop(s: Stmt) returns (status: Status)
      requires s.Loop?
      modifies this
      ensures Result(Snap(), status) == Act(design, s, old(Snap()))
      decreases world.ticks, Size(s), 3
    {
      var test;
      var f := At(s.id);
      if f.looped {
        Put(s.id, f.(looped := false));
        test := PostExecute(s);
      } else {
        test := PreExecute(s);
      }
      while test
        invariant world.ticks <= old(world.ticks)
        invariant Act(design, s, old(Snap())) ==
          if test then LoopGoM(design, s, Snap()) else Result(Snap(), Done)
        decreases world.ticks, test
      {
        status, test := Iteration(s);
        if status != Done { return; }
      }
      status := Done;
    }

    /** Run the body once; `test` tells whether it runs again. */
    method Iteration(s: Stmt) returns (status: Status, test: bool)
      requires s.Loop?
      modifies this
      ensures world.ticks <= old(world.ticks) && (status == Done && test ==> world.ticks < old(world.ticks))
      ensures LoopGoM(design, s, old(Snap())) ==
        if status == Done && test then LoopGoM(design, s, Snap()) else Result(Snap(), status)
      decreases world.ticks, Size(s), 2
    {
      hide Trigger, LoopNextM, Children, Size;
      OneChild(s);
      if world.ticks == 0 { return Bound, false; }
      world := world.(ticks := world.ticks - 1);
      status := TriggerStmt(Children(s)[0]);
      test := false;
      if status == Delayed {
        var f := At(s.id);
        Put(s.id, f.(looped := true, armed := f.armed || s.dec.Delay?));
      } else if status == Done {
        test := PostExecute(s);
      }
    }

    method PostProcess()
      modifies this
      ensures Snap() == PostProc(old(Snap()))
    {
      if stk != [] {
        var b := stk[0];
        var f := At(b.id);
        if !(b.Block? && f.cur < |b.items| && b.items[f.cur].Loop? && At(b.items[f.cur].id).looped) {
          Put(b.id, f.(cur := f.cur + 1));
        }
        wake := wake + [Requeue(world.now)];
      }
    }

    /** Deliver the pending restart and trigger the root. */
    method Restart() returns (status: Status)
      requires wake != []
      modifies this
      ensures Result(Snap(), status) == Step(design, root, old(Snap()))
    {
      var k := wake[0];
      if !k.Requeue? {
        if world.ticks == 0 { return Bound; }
        world := world.(now := k.at, ticks := world.ticks - 1);
      }
      wake := wake[1..];
      world := Woken(design, world);
      status := TriggerStmt(root);
      if status == Done { PostProcess(); }
    }

    /** Run the process to its end or to the step bound: the clock, the store
        and the timed effects are those of the plain recursive semantics. */
    method Run() returns (finished: bool)
      requires Fragment(design, root) && !design.atomic && Snap() == Restarts.Start(world)
      modifies this
      ensures var o := RunProcess(design, root, Woken(design, old(world)));
        world == o.w && (finished <==> o.Fin?)
    {
      Restarts.RestartsRefinePlain(design, root, world);
      while wake != []
        invariant Restarts.Resting(design, root, Snap())
        invariant Restarts.Drive(design, root, Snap()).m.world ==
          Restarts.Drive(design, root, old(Snap())).m.world
        invariant Restarts.Drive(design, root, Snap()).status == Restarts.Drive(design, root, old(Snap())).status
        decreases world.ticks, wake != [] && wake[0].Requeue?, |stk|
      {
        Restarts.StepOk(design, root, Snap());
        var status := Restart();
        if status == Bound { return false; }
      }
      finished := true;
    }
  }

  lemma OneChild(s: Stmt)
    requires s.Loop?
    ensures |Children(s)| == 1
  {
  }
}
