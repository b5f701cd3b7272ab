/** What single statements do, told from their text and the design alone: which
    branch runs, what is read and written and when, which restart is asked for. */
module Statements {
  import opened Wrappers
  import opened Program
  import opened Machine

  // ----- branches -----

  /** Some label of arm `k` matches the case expression. */
  ghost predicate Labelled(d: Design, s: Stmt, k: nat, store: Store)
    requires s.Case?
  {
    k < |s.labels| && exists x | x in s.labels[k] :: d.matches(s.expr, x, store)
  }

  lemma {:induction false} MatchingFrom(d: Design, s: Stmt, store: Store, j: nat)
    requires s.Case? && j <= |s.arms|
    ensures var k := Matching(d, s, store, j);
      j <= k <= |s.arms| && (k < |s.arms| ==> Labelled(d, s, k, store)) &&
      forall i | j <= i < k :: !Labelled(d, s, i, store)
    decreases |s.arms| - j
  {
    if j < |s.arms| && !Labelled(d, s, j, store) {
      if j < |s.labels| { MatchingFrom(d, s, store, j + 1); }
    }
  }

  /** The position picked is that of the first arm with a matching label, and
      that of the default if there is none. */
  lemma CasePicks(d: Design, s: Stmt, store: Store, k: nat)
    requires s.Case? && k <= |s.arms|
    ensures Picked(d, s, store) == k <==>
      (k < |s.arms| ==> Labelled(d, s, k, store)) && forall i | 0 <= i < k :: !Labelled(d, s, i, store)
  {
    MatchingFrom(d, s, store, 0);
  }

  /** A case statement does what that arm does, in the plain semantics as well as
      in the machine. */
  lemma CaseRuns(d: Design, s: Stmt, w: World, m: State, k: nat)
    requires s.Case? && s.dec.Free? && k <= |s.arms|
    requires (k < |s.arms| ==> Labelled(d, s, k, w.store)) && forall i | 0 <= i < k :: !Labelled(d, s, i, w.store)
    ensures var arm := if k < |s.arms| then s.arms[k] else s.other;
      Run(d, s, w) == Run(d, arm, w) && (m.world == w ==> Trigger(d, s, m) == Trigger(d, arm, m))
  {
    hide Labelled, Picked;
    CasePicks(d, s, w.store, k);
    assert Children(s)[k] == if k < |s.arms| then s.arms[k] else s.other;
  }

  lemma IfRuns(d: Design, s: Stmt, w: World, m: State)
    requires s.If? && s.dec.Free?
    ensures var branch := if d.test(s.test, w.store) then s.yes else s.no;
      Run(d, s, w) == Run(d, branch, w) && (m.world == w ==> Trigger(d, s, m) == Trigger(d, branch, m))
  {
    assert Children(s)[0] == s.yes && Children(s)[1] == s.no;
  }

  /** A block does its items in the order of the text. */
  lemma BlockRuns(d: Design, b: Stmt, i: nat, w: World)
    requires b.Block? && i < |b.items|
    ensures var o := Run(d, b.items[i], w);
      RunFrom(d, b, i, w) == if o.Cut? then o else Join(o.paused, RunFrom(d, b, i + 1, o.w))
    ensures RunFrom(d, b, |b.items|, w) == Fin(w, false)
  {
    hide Run;
    assert Children(b)[i] == b.items[i];
  }

  /** A repeat loop takes its count, cut to 32 bits, before the first iteration;
      each one counts it down, in the plain semantics and in the machine. */
  lemma RepeatRuns(d: Design, s: Stmt, w: World, m: State)
    requires s.Loop? && s.dec.Free? && s.kind.Repeat?
    ensures var n := d.times(s.kind.times, w.store) % 0x1_0000_0000;
      Run(d, s, w) == (if n == 0 then Fin(w, false) else LoopGo(d, s, n, w)) &&
      (m.world == w && !Of(m, s.id).looped ==>
         var m1 := Set(m, s.id, Of(m, s.id).(count := n));
         Trigger(d, s, m) == if n == 0 then Result(m1, Done) else LoopGoM(d, s, m1))
    ensures forall n: nat :: LoopNext(d, s, n, w) == if n <= 1 then Fin(w, false) else LoopGo(d, s, n - 1, w)
  {
    hide LoopGo, LoopGoM, LoopNextM, Run, Trigger;
    LoopEntered(d, s, w, m);
  }

  lemma LoopEntered(d: Design, s: Stmt, w: World, m: State)
    requires s.Loop? && s.dec.Free?
    ensures Run(d, s, w) == LoopStart(d, s, w)
    ensures Trigger(d, s, m) ==
      if Of(m, s.id).looped then LoopNextM(d, s, Set(m, s.id, Of(m, s.id).(looped := false))) else LoopStartM(d, s, m)
  {
    hide LoopStart, LoopStartM, LoopNextM;
  }

  // ----- assignments -----

  /** The world after a value is stored: a value of only Z bits changes nothing. */
  function Stored(d: Design, t: Target, v: Value, w: World): World {
    if v.tristate then w
    else World(w.now, d.write(t, v, w.store), w.log + [Wrote(w.now, t, v)], w.wakes, w.ticks)
  }

  /** The world in which the process is restarted, `n` time units later. */
  function Later(d: Design, n: nat, w: World): World
    requires w.ticks > 0
  {
    var found := d.disturb(World(w.now + n, w.store, w.log, w.wakes, w.ticks - 1));
    World(w.now + n, found, w.log, w.wakes + 1, w.ticks - 1)
  }

  /** Without delays, an assignment reads its operands and stores at once. */
  lemma AssignRuns(d: Design, s: Stmt, w: World)
    requires s.Assign? && s.dec.Free? && s.store.Free?
    ensures Run(d, s, w) ==
      Fin(Stored(d, d.target(s.move.lvalue, w.store), d.value(s.move.rvalue, w.store), w), false)
  {
  }

  /** `net = #n value` reads its operands now and stores them `n` time units later,
      in the store it finds then. */
  lemma DelayedAssignRuns(d: Design, s: Stmt, w: World)
    requires s.Assign? && s.dec.Free? && s.store.Delay? && w.ticks > 0
    ensures Run(d, s, w) ==
      Fin(Stored(d, d.target(s.move.lvalue, w.store), d.value(s.move.rvalue, w.store),
                 Later(d, s.store.amount, w)), true)
  {
  }

  /** A nonblocking assignment leaves one entry, with the current time, its delay
      and what it has read, and changes nothing else; in the machine as well. */
  lemma NonBlockingRuns(d: Design, s: Stmt, w: World, m: State)
    requires s.NonBlocking? && s.dec.Free?
    ensures var e := Posted(w.now, s.store, d.target(s.move.lvalue, w.store), d.value(s.move.rvalue, w.store));
      var v := World(w.now, w.store, w.log + [e], w.wakes, w.ticks);
      Run(d, s, w) == Fin(v, false) &&
      (m.world == w ==> Trigger(d, s, m) == Result(State(v, m.stk, m.fields, m.wake), Done))
  {
  }

  // ----- waits -----

  /** `#n s` does `s` in the store found `n` time units later. */
  lemma DelayRuns(d: Design, s: Stmt, w: World)
    requires s.dec.Delay? && w.ticks > 0
    ensures Run(d, s, w) == Join(true, Body(d, s, Later(d, s.dec.amount, w)))
  {
    hide Body;
  }

  lemma EventRuns(d: Design, s: Stmt, w: World)
    requires s.dec.Event? && w.ticks > 0
    ensures Run(d, s, w) == Join(true, Body(d, s, Later(d, d.arrival(s.dec.name, w), w)))
  {
    hide Body;
  }

  /** The restart a control asks for: a zero delay goes to the inactive queue, any
      other one to the wheel for its time. */
  function Asked(d: Design, c: Control, w: World): Wakeup
    requires !c.Free?
  {
    match c
    case Delay(n) => if n > 0 then Timer(w.now + n) else Inactive(w.now)
    case Event(e) => Sensed(w.now + d.arrival(e, w))
  }

  lemma ArmAsks(d: Design, c: Control, m: State)
    requires !c.Free?
    ensures Arm(d, c, m) == m.(wake := m.wake + [Asked(d, c, m.world)])
  {
  }

  lemma DecAsks(d: Design, s: Stmt, m: State)
    requires !s.dec.Free?
    ensures var f := Of(m, s.id);
      HandleDec(d, s, m) ==
        if f.armed then Result(Set(m, s.id, f.(armed := false)), Done)
        else Result(Set(m, s.id, f.(armed := true)).(wake := m.wake + [Asked(d, s.dec, m.world)]), Delayed)
  {
    hide Arm, Asked;
    ArmAsks(d, s.dec, Set(m, s.id, Of(m, s.id).(armed := true)));
  }

  /** A control that is not armed asks for one restart and leaves everything else
      alone; when it is armed, it has elapsed, and the statement runs. */
  lemma ControlAsks(d: Design, s: Stmt, m: State)
    requires !s.dec.Free?
    ensures var f := Of(m, s.id);
      Trigger(d, s, m) ==
        if f.armed then Act(d, s, Set(m, s.id, f.(armed := false)))
        else Result(Set(m, s.id, f.(armed := true)).(wake := m.wake + [Asked(d, s.dec, m.world)]), Delayed)
  {
    hide Act, HandleDec, Asked, Set, Of;
    DecAsks(d, s, m);
  }

  /** So does the delay of an assignment, which keeps what it has read; the next
      activation stores that. */
  lemma StoreAsks(d: Design, s: Stmt, m: State)
    requires s.Assign? && s.dec.Free? && !s.store.Free?
    ensures var f := Of(m, s.id);
      var c := Capture(d.target(s.move.lvalue, m.world.store), d.value(s.move.rvalue, m.world.store));
      Trigger(d, s, m) ==
        match f.pending
        case None =>
          Result(Set(m, s.id, f.(pending := Some(c), storing := true))
                 .(wake := m.wake + [Asked(d, s.store, m.world)]), Delayed)
        case Some(p) =>
          Result(Set(m, s.id, f.(pending := None, storing := false))
                 .(world := Stored(d, p.target, p.value, m.world)), Done)
  {
    hide Arm, Asked;
    var c := Capture(d.target(s.move.lvalue, m.world.store), d.value(s.move.rvalue, m.world.store));
    ArmAsks(d, s.store, Set(m, s.id, Of(m, s.id).(pending := Some(c), storing := true)));
  }
}
